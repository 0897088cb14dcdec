/** The editor's server-state layer (`useWorkFlowAPI.ts`): how each request
    turns a reply into a value or an error message, and how the mutation
    hooks update the shared query cache. `N` and `E` are the canvas's node
    and edge types, which the cache stores without looking inside. */
module QueryCache {
  import opened Wrappers

  /** A workflow as the client receives it. `updatedId` is the extra
      `updated_id` field that an optimistic save adds. */
  datatype Workflow<N, E> = Workflow(
    id: int,
    name: string,
    description: string,
    nodes: seq<N>,
    edges: seq<E>,
    isActive: bool,
    createdAt: string,
    updatedAt: string,
    updatedId: Option<string>)

  // ---------------------------------------------------------------------
  // Replies and error messages

  /** What the client sees of an HTTP reply: its status and, for a failed
      create or update, the `message` field of the JSON error body. */
  datatype Reply = Reply(status: nat, errorMessage: Option<string>)

  /** `response.ok`. */
  predicate IsOk(r: Reply) {
    200 <= r.status <= 299
  }

  const FetchListFailed := "Error fetching workflows"
  const NotFound := "Workflow not found"
  const FetchFailed := "Error fetching workflow"
  const CreateFailed := "Error creating workflow"
  const UpdateFailed := "Error updating workflow"
  const SaveCanvasFailed := "Failed to save workflow canvas"

  /** `errorData.message || fallback`: an absent or empty message gives the
      fallback. */
  function MessageOr(m: Option<string>, fallback: string): (s: string)
    ensures m.Some? && m.value != "" ==> s == m.value
    ensures m.None? || m.value == "" ==> s == fallback
  {
    if m.Some? && m.value != "" then m.value else fallback
  }

  /** `getWorkflows`. */
  function GetWorkflows<T>(r: Reply, body: T): (c: Call<T>)
    ensures c.Returned? <==> IsOk(r)
    ensures c.Returned? ==> c.value == body
    ensures c.Raised? ==> c.message == FetchListFailed
  {
    if !IsOk(r) then Raised(FetchListFailed) else Returned(body)
  }

  /** `getWorkflowById`: a 404 and any other failure are told apart. */
  function GetWorkflowById<T>(r: Reply, body: T): (c: Call<T>)
    ensures c.Returned? <==> IsOk(r)
    ensures c.Returned? ==> c.value == body
    ensures c.Raised? ==> (c.message == NotFound <==> r.status == 404)
    ensures c.Raised? && r.status != 404 ==> c.message == FetchFailed
  {
    if !IsOk(r) then
      if r.status == 404 then Raised(NotFound) else Raised(FetchFailed)
    else Returned(body)
  }

  /** `createWorkflow`: the server's message when it gave one. */
  function CreateWorkflow<T>(r: Reply, body: T): (c: Call<T>)
    ensures c.Returned? <==> IsOk(r)
    ensures c.Returned? ==> c.value == body
    ensures c.Raised? ==> c.message == MessageOr(r.errorMessage, CreateFailed)
  {
    if !IsOk(r) then Raised(MessageOr(r.errorMessage, CreateFailed)) else Returned(body)
  }

  /** `updateWorkflow`: the server's message when it gave one. */
  function UpdateWorkflow<T>(r: Reply, body: T): (c: Call<T>)
    ensures c.Returned? <==> IsOk(r)
    ensures c.Returned? ==> c.value == body
    ensures c.Raised? ==> c.message == MessageOr(r.errorMessage, UpdateFailed)
  {
    if !IsOk(r) then Raised(MessageOr(r.errorMessage, UpdateFailed)) else Returned(body)
  }

  /** `saveCanvas`: one fixed message, whatever the server said. */
  function SaveCanvas<T>(r: Reply, body: T): (c: Call<T>)
    ensures c.Returned? <==> IsOk(r)
    ensures c.Returned? ==> c.value == body
    ensures c.Raised? ==> c.message == SaveCanvasFailed
  {
    if !IsOk(r) then Raised(SaveCanvasFailed) else Returned(body)
  }

  /** Every failing request raises an error with a non-empty message, and
      only a 404 on a single fetch reads "Workflow not found". */
  lemma ErrorMessagesNonEmpty<T>(r: Reply, body: T)
    requires !IsOk(r)
    ensures GetWorkflows(r, body).message != ""
    ensures GetWorkflowById(r, body).message != ""
    ensures CreateWorkflow(r, body).message != ""
    ensures UpdateWorkflow(r, body).message != ""
    ensures SaveCanvas(r, body).message != ""
    ensures CreateWorkflow(r, body).message != NotFound || r.errorMessage == Some(NotFound)
  {
  }

  // ---------------------------------------------------------------------
  // Cache keys and entries

  /** One element of a query key. */
  datatype KeyPart = Name(name: string) | Num(n: int)
  type Key = seq<KeyPart>

  /** `['workflows']`, the prefix of every list query. */
  const ListsPrefix: Key := [Name("workflows")]
  /** `['workflows', 0, 100]`, the list the create and update hooks write. */
  const PageKey: Key := [Name("workflows"), Num(0), Num(100)]

  /** `['workflow', id]`. */
  function WorkflowKey(id: int): Key {
    [Name("workflow"), Num(id)]
  }

  /** A cached value: a list of workflows or one workflow. */
  datatype Entry<N, E> = List(items: seq<Workflow<N, E>>) | One(workflow: Workflow<N, E>)

  /** React Query's key matching: a query matches a filter key that is a
      prefix of its own key. */
  predicate Matches(filter: Key, key: Key) {
    |filter| <= |key| && key[..|filter|] == filter
  }

  /** A single workflow's key is not a list key; the page's key is. */
  lemma KeyKinds(id: int)
    ensures !Matches(ListsPrefix, WorkflowKey(id))
    ensures Matches(ListsPrefix, PageKey)
  {
    assert WorkflowKey(id)[..1] == [Name("workflow")];
    assert |"workflow"| != |"workflows"|;
    assert PageKey[..1] == ListsPrefix;
  }

  /** Lists live under `['workflows', ...]` and single workflows elsewhere. */
  ghost predicate WellTyped<N, E>(data: map<Key, Entry<N, E>>) {
    forall k | k in data :: data[k].List? <==> Matches(ListsPrefix, k)
  }

  // ---------------------------------------------------------------------
  // The updater callbacks

  /** The create hook's updater: the new workflow in front of the cached
      list, or alone when there is none. */
  function PrependCreated<N, E>(cached: Option<seq<Workflow<N, E>>>, w: Workflow<N, E>): (r: seq<Workflow<N, E>>)
    ensures |r| >= 1 && r[0] == w
    ensures cached.Some? ==> r[1..] == cached.value
    ensures cached.None? ==> r == [w]
  {
    if cached.Some? then [w] + cached.value else [w]
  }

  /** The update hook's `map`: entries with the workflow's id become it,
      the others stay where they are. */
  function ReplaceById<N, E>(items: seq<Workflow<N, E>>, w: Workflow<N, E>): (r: seq<Workflow<N, E>>)
    ensures |r| == |items|
    ensures forall i | 0 <= i < |items| :: r[i] == (if items[i].id == w.id then w else items[i])
  {
    if items == [] then []
    else [if items[0].id == w.id then w else items[0]] + ReplaceById(items[1..], w)
  }

  /** Replacing twice is replacing once, and a list without the id is left
      as it is. */
  lemma ReplaceByIdIdempotent<N, E>(items: seq<Workflow<N, E>>, w: Workflow<N, E>)
    ensures ReplaceById(ReplaceById(items, w), w) == ReplaceById(items, w)
    ensures (forall i | 0 <= i < |items| :: items[i].id != w.id) ==> ReplaceById(items, w) == items
  {
  }

  /** The optimistic updater: a copy with the new nodes and edges and the
      `updated_id` stamp; every other field, `updatedAt` included, is the
      cached one. */
  function OptimisticCopy<N, E>(cached: Workflow<N, E>, nodes: seq<N>, edges: seq<E>, stamp: string): (r: Workflow<N, E>)
    ensures r.nodes == nodes && r.edges == edges && r.updatedId == Some(stamp)
    ensures r.(nodes := cached.nodes, edges := cached.edges, updatedId := cached.updatedId) == cached
  {
    cached.(nodes := nodes, edges := edges, updatedId := Some(stamp))
  }

  // ---------------------------------------------------------------------
  // The query client

  /** The shared `QueryClient`: cached data by key, and the keys marked
      stale by invalidation. */
  class QueryClient<N, E> {
    var data: map<Key, Entry<N, E>>
    var stale: set<Key>

    ghost predicate Valid()
      reads this
    {
      WellTyped(data)
    }

    constructor ()
      ensures Valid() && data == map[] && stale == {}
    {
      data := map[];
      stale := {};
    }

    /** `invalidateQueries({ queryKey: filter })`: every cached query the
        filter matches is marked stale. */
    method Invalidate(filter: Key)
      modifies this
      ensures data == old(data)
      ensures stale == old(stale) + set k | k in data && Matches(filter, k)
    {
      stale := stale + set k | k in data && Matches(filter, k);
    }

    /** The cached page of workflows, if any. */
    function Page(): (r: Option<seq<Workflow<N, E>>>)
      reads this
      requires Valid()
      ensures r.Some? <==> PageKey in data
    {
      if PageKey in data then Some(data[PageKey].items) else None
    }

    /** `useCreateWorkflow`'s `onSuccess`. */
    method OnCreateSuccess(w: Workflow<N, E>)
      requires Valid()
      modifies this
      ensures Valid()
      ensures data == old(data)[PageKey := List(PrependCreated(old(Page()), w))]
      ensures stale == old(stale) + set k | k in data && Matches(ListsPrefix, k)
    {
      var page := Page();
      KeyKinds(0);
      data := data[PageKey := List(PrependCreated(page, w))];
      Invalidate(ListsPrefix);
    }

    /** `useUpdateWorkflow`'s `onSuccess`: an absent page stays absent,
        because the updater then returns `undefined`. */
    method OnUpdateSuccess(w: Workflow<N, E>)
      requires Valid()
      modifies this
      ensures Valid()
      ensures stale == old(stale)
      ensures old(Page()).None? ==> data == old(data)[WorkflowKey(w.id) := One(w)]
      ensures old(Page()).Some? ==>
        data == old(data)[WorkflowKey(w.id) := One(w)][PageKey := List(ReplaceById(old(Page()).value, w))]
    {
      KeyKinds(w.id);
      data := data[WorkflowKey(w.id) := One(w)];
      var page := Page();
      if page.Some? {
        data := data[PageKey := List(ReplaceById(page.value, w))];
      }
    }

    /** `useSaveCanvas`'s `onSuccess`: only the workflow's own entry. */
    method OnSaveCanvasSuccess(w: Workflow<N, E>)
      requires Valid()
      modifies this
      ensures Valid()
      ensures stale == old(stale)
      ensures data == old(data)[WorkflowKey(w.id) := One(w)]
    {
      KeyKinds(w.id);
      data := data[WorkflowKey(w.id) := One(w)];
    }

    /** `useOptimisticSaveCanvas`'s `onMutate`: remember the cached entry,
        then show the new canvas in it if there is one. */
    method OnMutate(id: int, nodes: seq<N>, edges: seq<E>, stamp: string) returns (snapshot: Option<Entry<N, E>>)
      requires Valid()
      modifies this
      ensures Valid()
      ensures stale == old(stale)
      ensures snapshot == (if WorkflowKey(id) in old(data) then Some(old(data)[WorkflowKey(id)]) else None)
      ensures snapshot.Some? ==> snapshot.value.One?
      ensures snapshot.None? ==> data == old(data)
      ensures snapshot.Some? ==>
        data == old(data)[WorkflowKey(id) := One(OptimisticCopy(snapshot.value.workflow, nodes, edges, stamp))]
    {
      var key := WorkflowKey(id);
      KeyKinds(id);
      snapshot := if key in data then Some(data[key]) else None;
      if snapshot.Some? {
        data := data[key := One(OptimisticCopy(snapshot.value.workflow, nodes, edges, stamp))];
      }
    }

    /** `onError`: put the snapshot back when there was one. */
    method OnOptimisticError(id: int, snapshot: Option<Entry<N, E>>)
      requires Valid()
      requires snapshot.Some? ==> snapshot.value.One?
      modifies this
      ensures Valid()
      ensures stale == old(stale)
      ensures snapshot.None? ==> data == old(data)
      ensures snapshot.Some? ==> data == old(data)[WorkflowKey(id) := snapshot.value]
    {
      if snapshot.Some? {
        KeyKinds(id);
        data := data[WorkflowKey(id) := snapshot.value];
      }
    }

    /** `onSettled`: the workflow's entry is marked stale either way. */
    method OnOptimisticSettled(id: int)
      modifies this
      ensures data == old(data)
      ensures stale == old(stale) + set k | k in data && Matches(WorkflowKey(id), k)
    {
      Invalidate(WorkflowKey(id));
    }
  }

  /** A failed optimistic save leaves the cached data exactly as it was
      before the mutation started, and the workflow's entry marked stale. */
  method OptimisticSaveFails<N, E>(client: QueryClient<N, E>, id: int, nodes: seq<N>, edges: seq<E>, stamp: string)
    requires client.Valid()
    modifies client
    ensures client.Valid()
    ensures client.data == old(client.data)
    ensures WorkflowKey(id) in client.data ==> WorkflowKey(id) in client.stale
  {
    var snapshot := client.OnMutate(id, nodes, edges, stamp);
    client.OnOptimisticError(id, snapshot);
    client.OnOptimisticSettled(id);
    assert Matches(WorkflowKey(id), WorkflowKey(id));
  }

  /** A successful create puts the new workflow first in the page and marks
      every list stale, the page included. */
  method CreateSucceeds<N, E>(client: QueryClient<N, E>, w: Workflow<N, E>)
    requires client.Valid()
    modifies client
    ensures client.Valid()
    ensures PageKey in client.data && client.data[PageKey].List?
    ensures client.data[PageKey].items != [] && client.data[PageKey].items[0] == w
    ensures PageKey in client.stale
  {
    client.OnCreateSuccess(w);
    KeyKinds(0);
  }
}
