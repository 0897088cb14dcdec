# AI workflow editor: a Dafny model

This project models the core of a small no-code AI workflow builder. A user
lays out a pipeline on a canvas from four kinds of node: user query,
knowledge base, LLM engine and output. The pipeline is stored as a workflow
record, and the user then validates it or chats with it. The model covers
two sides.

- **Server.** It covers the workflow store (`workflow_manage_service.py`)
  and the engine that executes a stored workflow
  (`workflow_execution_service.py`):
  - the node dictionary and the adjacency list;
  - the pattern classification;
  - the depth-first execution order and its by-type fallback;
  - the four node handlers and the run;
  - the result dictionary.

  It also covers how the execute, validate and chat routes turn that
  dictionary into HTTP replies (`workflow_execution.py`).
- **Client.** It covers the request helpers and the query-cache updaters
  (`useWorkFlowAPI.ts`), the retry policy (`main.tsx`) and the debounced
  auto-save hook (`useWorkflowPersistence.tsx`). It also covers:
  - the canvas and its drop handler (`ReactFlowDemo.tsx`);
  - the node form (`WorkflowNode.tsx`) and the node palette's
    configurations (`nodeConfigs.ts`);
  - the editor page (`WorkflowEditor.tsx`) and the list page
    (`WorkflowManagement.tsx`).

A few principles run through the model:

- **Functions and classes follow the source.** Pure logic is written as
  functions with lemmas. Objects and React components whose state changes
  step by step are classes whose methods are proved against those
  functions: the executor, the store, the auto-save hook, the query client,
  the canvas, the node form and the two pages.
- **Outside services are parameters.** The database is a map inside the
  store class. Clocks are parameters or a counter. The vector store and the
  LLM are a `Services` value whose calls may return or raise. Every
  asynchronous UI handler becomes one method that takes the outcome of its
  request as a parameter.
- **The generation call always raises.** The executor calls
  `generate_response` with keyword arguments that the function in
  `llm_service.py` does not accept, so every call raises. The model leaves
  the outcome to the `Services` parameter. `LlmNeverSucceedsWhenGenerationRaises`
  states the consequence: under a raising service, no LLM node is ever
  recorded as executed.

Where the code and its description differ, the model follows the code:

- The auto-save hook captures the nodes and edges when the timer is set,
  not when it fires.
- `final_response` can be `null`: the executor's own default for that key
  is never used, because the key is always present.
- Nothing on the editor page ever sets `hasUnsavedChanges`. So the Save
  button is always disabled, and leaving the page never asks for
  confirmation (`SaveDisabled`, `LeaveEditor`).
- The chat panel does not look at the reply's status. A rejected chat (an
  unknown workflow, or one without nodes) therefore shows as an ordinary
  answer reading "No response generated".
- A metadata save with a blank description leaves the field out of the
  request, so a stored description can never be cleared
  (`BlankDescriptionKeepsStored`).
- The create updater writes the cache key `['workflows', 0, 100]`, while
  the list query reads `['workflows']`.

## Model

| member | source | states |
|---|---|---|
| Text.Trim | client/src/pages/WorkflowEditor.tsx:66-67 | the result is the slice of the input between its leading and its trailing whitespace: everything cut off is whitespace, and the result neither starts nor ends with whitespace; it is empty exactly when the input is all whitespace |
| Text.NatToStringInjective | client/src/pages/WorkflowManagement.tsx:44 | different numbers render as different decimal strings |
| Text.ParseIntOfIntToString | client/src/pages/WorkflowEditor.tsx:26 | `parseInt` of a rendered integer gives that integer back |
| ExecutionGraph.IdSeq | server/app/services/workflow_execution_service.py:19 | the key list of the node dictionary has one id per entry, in entry order |
| ExecutionGraph.Lookup | server/app/services/workflow_execution_service.py:19 | a node is found exactly for an id in the dictionary, and the node found is an entry with that id |
| ExecutionGraph.Upsert | server/app/services/workflow_execution_service.py:19 | storing a node keeps every existing key in place, adds its id at the end only when it is new, and makes the key set grow by exactly that id |
| ExecutionGraph.UpsertLookup | server/app/services/workflow_execution_service.py:19 | after storing a node, its id looks up that node and every other id looks up what it did before |
| ExecutionGraph.NodeTable | server/app/services/workflow_execution_service.py:19 | the dictionary built from the stored node list holds each id once, in the order of its first occurrence in the list, with the same id set; a list whose ids are already distinct is kept exactly |
| ExecutionGraph.FirstOccurrences | server/app/services/workflow_execution_service.py:19 | the keys a dictionary comprehension keeps: each element of the list once, and nothing else |
| ExecutionGraph.NodeTableKeepsLastNode | server/app/services/workflow_execution_service.py:19 | each id looks up the last stored node with that id (duplicate ids keep the last value) |
| ExecutionGraph.TargetsFromMembership | server/app/services/workflow_execution_service.py:164-168 | an id is in a node's adjacency list exactly when an edge with non-empty ends leads from that node to it |
| ExecutionGraph.FirstOfType | server/app/services/workflow_execution_service.py:174-179 | the start node is absent exactly when no node has the user-query type, and otherwise it is a node of that type |
| ExecutionGraph.FirstOfTypeAt | server/app/services/workflow_execution_service.py:174-179 | the start node is the first user-query node in dictionary order |
| ExecutionGraph.LastOfType | server/app/services/workflow_execution_service.py:117-123 | the remembered node of a type is absent exactly when there is none, and otherwise it is the last such node |
| ExecutionGraph.Dfs | server/app/services/workflow_execution_service.py:195-205 | the walk only adds to the visited set and stays within the node ids |
| ExecutionGraph.DfsVisits | server/app/services/workflow_execution_service.py:195-205 | the walk lists each newly visited id exactly once, and lists exactly the ids it adds to the visited set |
| ExecutionGraph.DfsClosed | server/app/services/workflow_execution_service.py:195-205 | every node id that a visited node leads to is visited too |
| ExecutionGraph.DfsParented | server/app/services/workflow_execution_service.py:195-205 | every id the walk lists after the start follows a node it is a successor of |
| ExecutionGraph.DepthFirstOrder | server/app/services/workflow_execution_service.py:172-212 | with a start node, the order is a permutation of the node ids: it starts at the start node, lists the walk (closed under the adjacency list, each entry after a predecessor) and then the unvisited nodes in dictionary order |
| ExecutionGraph.FallbackOrderFacts | server/app/services/workflow_execution_service.py:181-189 | without a start node, the order lists exactly the nodes of the four types, each once, grouped by type in the fixed type order |
| ExecutionGraph.NodeLabel | server/app/services/workflow_execution_service.py:214-231 | an unknown id is its own label; a truthy data label wins; otherwise the type's display name or the type itself |
| ExecutionGraph.PatternUndefined | server/app/services/workflow_execution_service.py:143-153 | the classification returns nothing exactly when all four types are present and the user-query node links to neither the LLM nor the knowledge base |
| ExecutionGraph.PatternWithoutKnowledge | server/app/services/workflow_execution_service.py:150-153 | without a knowledge base, the pattern is "simple" when the other three types are present and "custom" otherwise; missing any of those three types gives "custom" |
| ExecutionGraph.PatternWithAllTypes | server/app/services/workflow_execution_service.py:143-149 | with all four types present, the user-query edges decide: through the knowledge base only is full RAG, both is hybrid, direct only is direct LLM, and neither "simple" nor "custom" is ever answered |
| WorkflowExecution.UserQueryStep | server/app/services/workflow_execution_service.py:254-271 | the handler always succeeds and changes only the query; without `preprocess` the query is untouched, and with it the query is the stripped query lower-cased character by character, empty exactly for a blank query; it logs the start line, the preprocessed query when there is one, and the done line |
| WorkflowExecution.KnowledgeApiKey | server/app/services/workflow_execution_service.py:280-294 | the key is dropped exactly when the configured key is blank; a kept key is the stripped configured key, so it is non-empty and starts with a non-space |
| WorkflowExecution.DocumentCalls | server/app/services/workflow_execution_service.py:304-321 | every uploaded file with a truthy path gets a processing call with its path, the node's key and its embedding model, and every call comes from such a file; there are never more calls than files |
| WorkflowExecution.DocumentCallsConcat | server/app/services/workflow_execution_service.py:308-321 | the calls for two lists of files are the calls for the first followed by those for the second, so the calls follow the file order |
| WorkflowExecution.FileLinesMatchCalls | server/app/services/workflow_execution_service.py:312-319 | the upload loop logs exactly one line per processing call |
| WorkflowExecution.KnowledgeStep | server/app/services/workflow_execution_service.py:273-352 | the handler fails exactly when retrieval raises, and then leaves the context alone; documents count as uploaded when files were listed, and the processing calls are exactly `DocumentCalls`; useful context is stored with the handler's key and embedding model, which stay as they were otherwise; the log lines are the start, key, upload, search and outcome lines in that order |
| WorkflowExecution.LlmApiKey | server/app/services/workflow_execution_service.py:371-388 | the LLM node's own non-blank key wins; otherwise the knowledge base's key when truthy; otherwise no key; a chosen key is never empty |
| WorkflowExecution.LlmStep | server/app/services/workflow_execution_service.py:354-428 | the handler succeeds exactly for a non-empty reply that does not start with "Error:", storing it; an unusable reply is stored as is, or as the apology when empty; a raise stores "Sorry, I encountered an error: " and the message; the log lines are the start, key, model and context lines, then the outcome line |
| WorkflowExecution.OutputStep | server/app/services/workflow_execution_service.py:430-469 | the handler succeeds and sets the final output: the LLM response when truthy, else "Echo: " plus the query, wrapped with the three metadata flags exactly when `includeMetadata` is set |
| WorkflowExecution.NodeStep | server/app/services/workflow_execution_service.py:233-252 | an unknown type fails and changes nothing; only an output node sets the final output; a user-query node always succeeds |
| WorkflowExecution.RunStep | server/app/services/workflow_execution_service.py:55-72 | one id of the order appends to the log, records the id only when its handler succeeds, and changes the final output only for an output node |
| WorkflowExecution.Graph | server/app/services/workflow_execution_service.py:155-170 | the adjacency list has an entry for every node id and no other, and lists a target under a node exactly when some edge with non-empty ends leads from that node to it |
| WorkflowExecution.RunExecuted | server/app/services/workflow_execution_service.py:55-72 | `nodes_executed` and the log only grow, and only by ids of the order whose node has one of the four types |
| WorkflowExecution.RunExecutedDistinct | server/app/services/workflow_execution_service.py:55-72 | with an order without repeats, no node is recorded twice |
| WorkflowExecution.RunFinalOutput | server/app/services/workflow_execution_service.py:55-72 | the final output is set when the order holds an output node and left as it was otherwise |
| WorkflowExecution.RunFinalOutputText | server/app/services/workflow_execution_service.py:440-448 | a final output produced by a run never has empty text |
| WorkflowExecution.LlmNeverSucceedsWhenGenerationRaises | server/app/services/workflow_execution_service.py:397-428 | when the generation call always raises, no LLM node is recorded as executed |
| WorkflowExecution.OrderHoldsHandledNodes | server/app/services/workflow_execution_service.py:172-212 | every node of the four handled types is in the execution order |
| WorkflowExecution.FinalResponseNoneIffNoOutputNode | server/app/services/workflow_execution_service.py:75-81 | `final_response` is `None` exactly when the node dictionary holds no output node |
| WorkflowExecution.WorkflowOutcome | server/app/services/workflow_execution_service.py:480-511 | the result fails exactly for an unknown id ("Workflow N not found") or an empty node list ("Workflow has no nodes to execute"); everything else runs |
| WorkflowExecution.BuildExecutionGraph | server/app/services/workflow_execution_service.py:155-170 | the loops build exactly the adjacency list `Graph` |
| WorkflowExecution.DfsVisit | server/app/services/workflow_execution_service.py:195-205 | the recursive visit produces exactly the visited set and order of the walk |
| WorkflowExecution.WorkflowExecutor.constructor | server/app/services/workflow_execution_service.py:17-25 | the executor holds the node dictionary, the edges, an empty log and the adjacency list |
| WorkflowExecution.WorkflowExecutor.AnalyzeWorkflowPattern | server/app/services/workflow_execution_service.py:103-153 | the method returns the classification `Pattern` |
| WorkflowExecution.WorkflowExecutor.LastNodesOfTypes | server/app/services/workflow_execution_service.py:117-123 | the loop remembers the last user-query, LLM and knowledge-base node |
| WorkflowExecution.WorkflowExecutor.ScanUserQueryEdges | server/app/services/workflow_execution_service.py:129-141 | direct-to-LLM holds exactly when some edge leads from the user-query node to the LLM node; through-knowledge holds exactly when some edge that does not match the first test leads from it to the knowledge node |
| WorkflowExecution.WorkflowExecutor.GetExecutionOrder | server/app/services/workflow_execution_service.py:172-212 | the method returns `ExecutionOrder` |
| WorkflowExecution.WorkflowExecutor.FindStartNode | server/app/services/workflow_execution_service.py:174-179 | the loop stops at the first user-query node |
| WorkflowExecution.WorkflowExecutor.TypeOrderFallback | server/app/services/workflow_execution_service.py:181-189 | the nested loops build `FallbackOrder` |
| WorkflowExecution.WorkflowExecutor.AppendUnvisited | server/app/services/workflow_execution_service.py:207-210 | the walk is followed by the unvisited ids in dictionary order |
| WorkflowExecution.WorkflowExecutor.ExecuteUserQueryNode | server/app/services/workflow_execution_service.py:254-271 | the state, the success flag and the appended log lines are those of `UserQueryStep` |
| WorkflowExecution.WorkflowExecutor.ExecuteKnowledgeBaseNode | server/app/services/workflow_execution_service.py:273-352 | the state, the success flag and the appended log lines are those of `KnowledgeStep` |
| WorkflowExecution.WorkflowExecutor.KnowledgeKey | server/app/services/workflow_execution_service.py:280-298 | the key is `KnowledgeApiKey`, and the debug lines and the key line are logged |
| WorkflowExecution.WorkflowExecutor.RecordRetrieval | server/app/services/workflow_execution_service.py:326-352 | the retriever's answer changes the state and logs its line as `RetrievalStep` says |
| WorkflowExecution.WorkflowExecutor.UploadDocuments | server/app/services/workflow_execution_service.py:300-324 | the upload loop makes exactly the calls `DocumentCalls`, sets the documents flag when files were listed, and logs `DocumentLines` |
| WorkflowExecution.WorkflowExecutor.ExecuteLlmEngineNode | server/app/services/workflow_execution_service.py:354-428 | the state, the success flag and the appended log lines are those of `LlmStep` |
| WorkflowExecution.WorkflowExecutor.LlmKey | server/app/services/workflow_execution_service.py:371-388 | the key is `LlmApiKey`, and the debug lines and the line naming the key's origin are logged |
| WorkflowExecution.WorkflowExecutor.RecordAnswer | server/app/services/workflow_execution_service.py:407-428 | the generator's answer changes the state and logs its line as `AnswerStep` says |
| WorkflowExecution.WorkflowExecutor.ExecuteOutputNode | server/app/services/workflow_execution_service.py:430-469 | the state, the success flag and the appended log lines are those of `OutputStep` |
| WorkflowExecution.WorkflowExecutor.ExecuteNode | server/app/services/workflow_execution_service.py:233-252 | dispatch by type as in `NodeStep`, logging an unknown type |
| WorkflowExecution.WorkflowExecutor.ExecuteEntry | server/app/services/workflow_execution_service.py:55-72 | one iteration of the run loop is `RunStep` |
| WorkflowExecution.WorkflowExecutor.StartRun | server/app/services/workflow_execution_service.py:30-52 | the state is reset, the header lines are logged, and the pattern and order are computed |
| WorkflowExecution.WorkflowExecutor.RunOrder | server/app/services/workflow_execution_service.py:55-72 | the loop over the order is `RunNodes` |
| WorkflowExecution.WorkflowExecutor.Execute | server/app/services/workflow_execution_service.py:27-91 | the run and the result dictionary are `ExecuteRun` and `Report` |
| WorkflowExecution.ExecuteWorkflow | server/app/services/workflow_execution_service.py:480-511 | the entry point returns `WorkflowOutcome` |
| ExecutionApi.AsDict | server/app/services/workflow_execution_service.py:75-91 | `success` is present and true exactly for a run, and `error` is present exactly for a failure |
| ExecutionApi.ExecuteEndpoint | server/app/api/workflow_execution.py:18-33 | the route answers 400 with the result's error (or the fixed text) unless `success` is true, and otherwise returns the dictionary |
| ExecutionApi.Validate | server/app/api/workflow_execution.py:36-67 | for a returned result, `valid` is its `success` and an invalid answer carries its error (or "Unknown error") and the fixed message; the errors list is empty exactly when valid; an exception gives no pattern or count, its message as the error and the "Validation failed: " text |
| ExecutionApi.Chat | server/app/api/workflow_execution.py:70-91 | the route answers 400 with the error (or the fixed text) unless `success` is true, and otherwise replies with the final response (or the fixed text when the key is missing), the id, the query, the result's context flag, log and timestamp |
| ExecutionApi.ExecuteEndpointOfWorkflow | server/app/api/workflow_execution.py:18-33 | over a stored workflow, the route fails exactly for an unknown id or an empty node list, with the executor's message |
| ExecutionApi.ValidateWorkflow | server/app/api/workflow_execution.py:36-59 | a stored workflow is valid exactly when it exists and has nodes; an invalid one reports "Unknown", zero nodes and the executor's message |
| ExecutionApi.ChatWithWorkflow | server/app/api/workflow_execution.py:76-91 | chatting with a workflow that has nodes succeeds, and the message is `null` exactly when there is no output node |
| WorkflowStore.Patched | server/app/services/workflow_manage_service.py:52-61 | each field given replaces the stored one and each field left out is kept; id, `is_active` and `created_at` never change; `updated_at` is the new time |
| WorkflowStore.Saved | server/app/services/workflow_manage_service.py:75-77 | saving the canvas is a patch of nodes and edges only |
| WorkflowStore.PatchNothing | server/app/services/workflow_manage_service.py:52-61 | an empty patch only touches `updated_at` |
| WorkflowStore.PatchTwice | server/app/services/workflow_manage_service.py:52-61 | applying the same patch twice equals applying it once at the later time |
| WorkflowStore.DescriptionNeverCleared | server/app/services/workflow_manage_service.py:54-55 | a stored description stays present under any patch |
| WorkflowStore.RecencySlot | server/app/services/workflow_manage_service.py:35 | in a newest-first list, the slot has strictly newer rows before it and rows no newer after it |
| WorkflowStore.InsertByRecency | server/app/services/workflow_manage_service.py:35 | the result holds exactly the old rows and the new row: one more row, and the same multiset plus the new one |
| WorkflowStore.InsertKeepsNewestFirst | server/app/services/workflow_manage_service.py:35 | insertion keeps the list ordered by `updated_at` descending |
| WorkflowStore.InsertKeepsDistinctIds | server/app/services/workflow_manage_service.py:31-37 | inserting a row with a new id keeps ids distinct |
| WorkflowStore.NewestListedFirst | server/app/services/workflow_manage_service.py:31-37 | the most recently updated active row heads the listing |
| WorkflowStore.WorkflowManageService.constructor | server/app/services/workflow_manage_service.py:10-11 | the service starts over a consistent table |
| WorkflowStore.WorkflowManageService.CreateWorkflow | server/app/services/workflow_manage_service.py:13-25 | a new row with a fresh id, the given name and description, no nodes or edges, active, created and updated now, newer than every other row |
| WorkflowStore.WorkflowManageService.GetWorkflowById | server/app/services/workflow_manage_service.py:27-29 | the row with that id, or none exactly when there is no such row |
| WorkflowStore.WorkflowManageService.GetAllWorkflows | server/app/services/workflow_manage_service.py:31-37 | exactly the active rows, each once, newest first |
| WorkflowStore.WorkflowManageService.UpdateWorkflow | server/app/services/workflow_manage_service.py:39-66 | an unknown id returns none and changes nothing; otherwise the row becomes its patch at the next tick |
| WorkflowStore.WorkflowManageService.SaveWorkflowData | server/app/services/workflow_manage_service.py:68-82 | an unknown id returns none and changes nothing; otherwise nodes and edges are replaced at the next tick |
| WorkflowStore.CreateThenList | server/app/services/workflow_manage_service.py:13-37 | a workflow just created heads the next listing |
| QueryCache.MessageOr | client/src/hooks/useWorkFlowAPI.ts:63 | the server's non-empty message, else the fallback |
| QueryCache.GetWorkflows | client/src/hooks/useWorkFlowAPI.ts:30-38 | the body is returned exactly for an OK status, and otherwise "Error fetching workflows" is raised |
| QueryCache.GetWorkflowById | client/src/hooks/useWorkFlowAPI.ts:41-50 | the body is returned exactly for an OK status; a failure raises "Workflow not found" exactly for 404 and "Error fetching workflow" otherwise |
| QueryCache.CreateWorkflow | client/src/hooks/useWorkFlowAPI.ts:53-66 | the body is returned exactly for an OK status, and otherwise the server's message or "Error creating workflow" is raised |
| QueryCache.UpdateWorkflow | client/src/hooks/useWorkFlowAPI.ts:69-88 | the body is returned exactly for an OK status, and otherwise the server's message or "Error updating workflow" is raised |
| QueryCache.SaveCanvas | client/src/hooks/useWorkFlowAPI.ts:90-108 | the body is returned exactly for an OK status, and otherwise "Failed to save workflow canvas" is raised |
| QueryCache.ErrorMessagesNonEmpty | client/src/hooks/useWorkFlowAPI.ts:30-108 | every failed request raises a non-empty message |
| QueryCache.KeyKinds | client/src/hooks/useWorkFlowAPI.ts:113-141 | the `['workflows']` filter matches the page key and never a single-workflow key |
| QueryCache.PrependCreated | client/src/hooks/useWorkFlowAPI.ts:137-139 | the new workflow comes first, followed by the cached list when there is one |
| QueryCache.ReplaceById | client/src/hooks/useWorkFlowAPI.ts:158-164 | same length; entries with the updated id are replaced and the rest kept |
| QueryCache.ReplaceByIdIdempotent | client/src/hooks/useWorkFlowAPI.ts:158-164 | replacing twice is replacing once, and a list without that id is unchanged |
| QueryCache.OptimisticCopy | client/src/hooks/useWorkFlowAPI.ts:199-206 | the copy has the new nodes, edges and stamp, and agrees with the cached workflow elsewhere |
| QueryCache.QueryClient.Invalidate | client/src/hooks/useWorkFlowAPI.ts:141 | every cached key the filter matches is marked stale, and the data is kept |
| QueryCache.QueryClient.Page | client/src/hooks/useWorkFlowAPI.ts:136-137 | the cached page list is present exactly when the page key is cached |
| QueryCache.QueryClient.OnCreateSuccess | client/src/hooks/useWorkFlowAPI.ts:134-142 | the page key holds the new workflow prepended, and every `workflows` key is marked stale |
| QueryCache.QueryClient.OnUpdateSuccess | client/src/hooks/useWorkFlowAPI.ts:151-166 | the single-workflow key holds the reply, and a cached page has the workflow replaced by id |
| QueryCache.QueryClient.OnSaveCanvasSuccess | client/src/hooks/useWorkFlowAPI.ts:175-180 | only the single-workflow key changes, to the reply |
| QueryCache.QueryClient.OnMutate | client/src/hooks/useWorkFlowAPI.ts:192-210 | the snapshot is the cached workflow; a cached workflow is replaced by its optimistic copy; nothing changes otherwise |
| QueryCache.QueryClient.OnOptimisticError | client/src/hooks/useWorkFlowAPI.ts:211-218 | a snapshot is written back, and nothing changes without one |
| QueryCache.QueryClient.OnOptimisticSettled | client/src/hooks/useWorkFlowAPI.ts:219-223 | the workflow's key is marked stale |
| QueryCache.OptimisticSaveFails | client/src/hooks/useWorkFlowAPI.ts:187-225 | a failed optimistic save restores the cache as it was and marks the workflow stale |
| QueryCache.CreateSucceeds | client/src/hooks/useWorkFlowAPI.ts:130-144 | after a create, the page list starts with the new workflow and is stale |
| RetryPolicy.Pow2 | client/src/main.tsx:12 | powers of two are at least 1 |
| RetryPolicy.RetryDelay | client/src/main.tsx:11-12 | the delay never exceeds 30 s and is either the cap or 1000·2^i |
| RetryPolicy.DelayDoubles | client/src/main.tsx:11-12 | the delay doubles from 1 s up to attempt index 4 |
| RetryPolicy.DelayCapped | client/src/main.tsx:11-12 | from attempt index 5 on, the delay is the 30 s cap |
| RetryPolicy.DelayMonotone | client/src/main.tsx:11-12 | the delay never decreases |
| RetryPolicy.BackoffTotal | client/src/main.tsx:11-12 | n retries never wait more than n times the 30 s cap in all |
| RetryPolicy.BackoffTotalGeometric | client/src/main.tsx:11-12 | up to five retries, the delays add up to the geometric sum 1000·(2^n − 1) ms |
| RetryPolicy.QueryBackoffTotal | client/src/main.tsx:10-12 | the three query retries wait 7 s in total, the case n = 3 of `BackoffTotalGeometric` |
| AutoSave.Mount | client/src/hooks/useWorkflowPersistence.tsx:41-43 | the first render arms a timer exactly when enabled, with no save issued |
| AutoSave.Step | client/src/hooks/useWorkflowPersistence.tsx:22-58 | each event issues at most one save and keeps the saves before it |
| AutoSave.DisabledDoesNothing | client/src/hooks/useWorkflowPersistence.tsx:23 | a disabled render disarms the timer, reports not saving, and neither expiry nor Save Now saves |
| AutoSave.RenderReplacesTimer | client/src/hooks/useWorkflowPersistence.tsx:25-37 | an enabled render arms the timer with exactly the new props |
| AutoSave.BurstArmsLast | client/src/hooks/useWorkflowPersistence.tsx:25-37 | a burst of enabled renders issues no save and leaves the timer armed with the last render's data |
| AutoSave.BurstThenExpire | client/src/hooks/useWorkflowPersistence.tsx:29-37 | a burst followed by the delay issues one save, with the last data, unless that data is empty |
| AutoSave.StepsAppend | client/src/hooks/useWorkflowPersistence.tsx:41-49 | running two event sequences one after the other is running their concatenation |
| AutoSave.EmptyExpirySkipped | client/src/hooks/useWorkflowPersistence.tsx:32-34 | an expiry with no nodes and no edges issues no save |
| AutoSave.SaveNowSavesOnce | client/src/hooks/useWorkflowPersistence.tsx:52-58 | Save Now disarms the timer and issues exactly one save with the current data |
| AutoSave.NoSaveAfterUnmount | client/src/hooks/useWorkflowPersistence.tsx:44-48 | after unmounting, no pending timer fires a save |
| AutoSave.NoSaveWhileDisarmed | client/src/hooks/useWorkflowPersistence.tsx:44-48 | without an armed timer, expiries and settles issue no save |
| AutoSave.Persistence.constructor | client/src/hooks/useWorkflowPersistence.tsx:12-49 | the mounted hook's state is `Mount` |
| AutoSave.Persistence.DebouncedSave | client/src/hooks/useWorkflowPersistence.tsx:22-38 | the state becomes `Debounce` of the old state |
| AutoSave.Persistence.Cleanup | client/src/hooks/useWorkflowPersistence.tsx:44-48 | only the timer is cleared |
| AutoSave.Persistence.Rerender | client/src/hooks/useWorkflowPersistence.tsx:41-49 | the state steps by a render event |
| AutoSave.Persistence.Expire | client/src/hooks/useWorkflowPersistence.tsx:29-37 | the state steps by an expiry |
| AutoSave.Persistence.SaveNow | client/src/hooks/useWorkflowPersistence.tsx:52-58 | the state steps by Save Now |
| AutoSave.Persistence.Settle | client/src/hooks/useWorkflowPersistence.tsx:18 | the state steps by the save settling |
| AutoSave.Persistence.Unmount | client/src/hooks/useWorkflowPersistence.tsx:44-48 | the state steps by unmounting |
| AutoSave.Persistence.IsSavingNow | client/src/hooks/useWorkflowPersistence.tsx:62 | saving is reported only when enabled and a save is in flight |
| NodeConfigs.ConfigsWellFormed | client/src/config/nodeConfigs.ts:5-205 | every node configuration is well formed |
| NodeConfigs.HandleIdsDistinct | client/src/config/nodeConfigs.ts:5-205 | handle ids are distinct within each configuration |
| NodeConfigs.FieldIdsDistinct | client/src/config/nodeConfigs.ts:5-205 | field ids are distinct within each configuration |
| NodeConfigs.DefaultsListed | client/src/config/nodeConfigs.ts:64-80 | every select field's default is one of its options |
| NodeConfigs.DefaultsInRange | client/src/config/nodeConfigs.ts:154-163 | every numeric default lies between its minimum and maximum |
| NodeConfigs.HandleDirections | client/src/config/nodeConfigs.ts:13-195 | the user query only emits and the output only receives; every other node has both directions |
| NodeConfigs.TemperatureInRange | client/src/config/nodeConfigs.ts:154-163 | the temperature field defaults to 0.7 within [0, 2] |
| NodeConfigs.OnlyQueryRequired | client/src/config/nodeConfigs.ts:22-30 | the user query's `query` field is the only required field |
| NodeForm.DisplayValue | client/src/components/WorkflowNode.tsx:56 | a truthy stored value shows; otherwise a truthy default; otherwise the empty string |
| NodeForm.FalsyValueShowsDefault | client/src/components/WorkflowNode.tsx:56 | a falsy stored value displays as if nothing were stored |
| NodeForm.InputType | client/src/components/WorkflowNode.tsx:77 | an input shows as text exactly when revealed, and as a password otherwise |
| NodeForm.HandlesOf | client/src/components/WorkflowNode.tsx:255-281 | the filter keeps exactly the handles of that kind |
| NodeForm.HandlesOfConcat | client/src/components/WorkflowNode.tsx:255-281 | filtering distributes over concatenation, so configuration order is kept |
| NodeForm.HandlesPartition | client/src/components/WorkflowNode.tsx:255-281 | the two columns together hold every handle exactly once |
| NodeForm.NodeFormState.constructor | client/src/components/WorkflowNode.tsx:40-44 | the form starts from the node's data, with nothing revealed |
| NodeForm.NodeFormState.HandleFieldChange | client/src/components/WorkflowNode.tsx:46-53 | one key is rebound, and the new map is handed on when there is a callback |
| NodeForm.NodeFormState.ToggleVisibility | client/src/components/WorkflowNode.tsx:92-96 | the field's eye flag flips |
| NodeForm.NodeFormState.SelectOption | client/src/components/WorkflowNode.tsx:108-127 | picking an option changes nothing |
| NodeForm.NodeFormState.ChooseFiles | client/src/components/WorkflowNode.tsx:154-158 | the first file's name is stored and handed on like any field change; an empty choice changes nothing |
| NodeForm.ToggleTwice | client/src/components/WorkflowNode.tsx:92-96 | two presses give back the same input type |
| Canvas.DndId | client/src/ReactFlowDemo.tsx:37 | every generated id starts with `dndnode_` |
| Canvas.DndIdInjective | client/src/ReactFlowDemo.tsx:36-37 | different counter readings give different ids |
| Canvas.IdCounter.constructor | client/src/ReactFlowDemo.tsx:36 | the counter starts at 0 with nothing issued |
| Canvas.IdCounter.GetId | client/src/ReactFlowDemo.tsx:37 | the id for the current reading, which differs from every earlier id, after which the counter moves on |
| Canvas.IssuedDistinct | client/src/ReactFlowDemo.tsx:36-37 | all ids issued are distinct |
| Canvas.PersistenceProps | client/src/ReactFlowDemo.tsx:56-61 | auto-save is enabled exactly for a present non-zero id, and the id passed is the id or 0 |
| Canvas.FlowCanvas.constructor | client/src/ReactFlowDemo.tsx:50-51 | the canvas starts from the initial nodes and edges |
| Canvas.FlowCanvas.LoadInitial | client/src/ReactFlowDemo.tsx:63-68 | the stored graph replaces the canvas exactly when it has a node or an edge |
| Canvas.FlowCanvas.OnDrop | client/src/ReactFlowDemo.tsx:80-108 | without a dragged type nothing changes; otherwise one node with an id the counter has not issued before, that type, the position and empty data is appended, and the type is cleared |
| EditorPage.RouteWorkflowId | client/src/pages/WorkflowEditor.tsx:26 | a missing or empty route parameter gives 0 |
| EditorPage.RouteWorkflowIdOfId | client/src/pages/WorkflowEditor.tsx:26 | a route built from an id parses back to that id |
| EditorPage.MetadataPayload | client/src/pages/WorkflowEditor.tsx:62-69 | the name is trimmed, and the description is left out exactly when blank and trimmed otherwise |
| EditorPage.AnswerEntry | client/src/pages/WorkflowEditor.tsx:137-156 | an exception gives an error entry with the "Failed to execute workflow: " text and the local time; a parsed body gives an ai entry with its message (or "No response generated"), timestamp, context flag and log; the message is never falsy |
| EditorPage.Join | client/src/pages/WorkflowEditor.tsx:100 | joining nothing gives "", and joining one item gives that item |
| EditorPage.ValidationAlert | client/src/pages/WorkflowEditor.tsx:95-106 | the success text exactly for a valid answer; otherwise "❌ Validation failed: " followed by the joined errors, or "Unknown error" when there are none or they join to the empty text, or the exception's message |
| EditorPage.Editor.constructor | client/src/pages/WorkflowEditor.tsx:24-48 | the page starts from the parsed route id, with empty fields and history |
| EditorPage.Editor.WorkflowLoaded | client/src/pages/WorkflowEditor.tsx:51-56 | the loaded name and description (or "") fill the fields |
| EditorPage.Editor.SaveMetadata | client/src/pages/WorkflowEditor.tsx:58-69 | without a loaded workflow nothing happens; otherwise the page is saving and the trimmed payload is sent |
| EditorPage.Editor.SaveSettled | client/src/pages/WorkflowEditor.tsx:71-78 | either outcome ends saving, and no unsaved changes remain |
| EditorPage.Editor.SaveDisabled | client/src/pages/WorkflowEditor.tsx:403 | the Save button is always disabled |
| EditorPage.Editor.ValidateWorkflow | client/src/pages/WorkflowEditor.tsx:83-110 | exactly one alert, `ValidationAlert` of the outcome, and validating ends |
| EditorPage.Editor.TypeChat | client/src/pages/WorkflowEditor.tsx:361-362 | typing replaces the chat input only |
| EditorPage.Editor.ChatSubmit | client/src/pages/WorkflowEditor.tsx:112-160 | blank input changes nothing; otherwise the trimmed query is sent, the input is cleared, and the user entry and the answer entry are appended |
| EditorPage.Editor.Back | client/src/pages/WorkflowEditor.tsx:162-174 | the page leaves for the list unless there are unsaved changes and the user declines |
| EditorPage.LeaveEditor | client/src/pages/WorkflowEditor.tsx:162-174 | on a page in its reachable state, Back always leaves for the list |
| EditorPage.ChatTurn | client/src/pages/WorkflowEditor.tsx:112-160 | one turn adds exactly a user entry and one answer, which is an error entry exactly when the request threw |
| ManagementPage.CreatePayload | client/src/pages/WorkflowManagement.tsx:34-39 | the name is trimmed, and the description is left out exactly when blank and trimmed otherwise |
| ManagementPage.EditorPath | client/src/pages/WorkflowManagement.tsx:44 | editor addresses start with `/workflow/` |
| ManagementPage.EditorPathRoundTrip | client/src/pages/WorkflowManagement.tsx:44 | the editor opened at a workflow's address reads back the same id |
| ManagementPage.CountOf | client/src/pages/WorkflowManagement.tsx:67-73 | the count is the list's length, and 0 exactly when the list is missing or empty |
| ManagementPage.Manager.constructor | client/src/pages/WorkflowManagement.tsx:23-25 | the dialog is closed, with empty inputs |
| ManagementPage.Manager.SetDialogOpen | client/src/pages/WorkflowManagement.tsx:229 | only the dialog flag changes |
| ManagementPage.Manager.TypeFields | client/src/pages/WorkflowManagement.tsx:24-25 | only the two inputs change |
| ManagementPage.Manager.CreateDisabled | client/src/pages/WorkflowManagement.tsx:289 | Create is enabled exactly when the name is not blank and nothing is pending |
| ManagementPage.Manager.HandleCreate | client/src/pages/WorkflowManagement.tsx:31-39 | a blank name sends nothing; otherwise one trimmed request is sent and the page is pending |
| ManagementPage.Manager.CreateSettled | client/src/pages/WorkflowManagement.tsx:40-48 | success closes the dialog, clears the inputs and opens the new workflow's editor; an error keeps everything but the pending flag |
| ManagementPage.Manager.EditWorkflow | client/src/pages/WorkflowManagement.tsx:53-55 | the page opens the workflow's editor |
| ManagementPage.ClickCreate | client/src/pages/WorkflowManagement.tsx:286-289 | clicking an enabled Create sends exactly one request, whose name is not blank |
| ManagementPage.CreateAndOpen | client/src/pages/WorkflowManagement.tsx:31-51 | a successful create lands on the editor, which reads the new id from its route |
| EndToEnd.ChatBodyOf | server/app/api/workflow_execution.py:78-91 | a rejected chat carries none of the fields the page reads; a successful one carries the server's timestamp, context flag and log, and a message exactly when it is not `null` |
| EndToEnd.ArrivedAnswer | client/src/pages/WorkflowEditor.tsx:137-147 | a reply that arrives is always an ai entry; it is timestamped exactly when it succeeded, and reads "No response generated" exactly when the reply had no usable message |
| EndToEnd.RejectedChatLooksAnswered | client/src/pages/WorkflowEditor.tsx:137-147 | a chat with an unknown or empty workflow shows as an ai entry reading "No response generated" |
| EndToEnd.NoOutputNodeLooksEmpty | server/app/api/workflow_execution.py:84-85 | a workflow without an output node answers with a `null` message, shown as "No response generated" |
| EndToEnd.BlankDescriptionKeepsStored | client/src/pages/WorkflowEditor.tsx:67 | a metadata save with a blank description keeps the stored description and nodes, and stores the trimmed name |

## Left out

- **Network, storage and logging.**
  - Database sessions, commits and refreshes are not modelled; the table is a map.
  - HTTP transport is left out, and fetch errors are modelled only as the outcome parameter.
  - `console` logging is left out.
  - The executor's log is modelled line by line, one line per `self.log` call, without the `[HH:MM:SS]` clock prefix that `log` adds. The config's key list and the printed temperature are fields of `NodeConfig`, not derived from a dictionary or a float.
- **Outside services.** The retriever and the LLM are `Services` parameters whose calls may return or raise. `process_docs` is a parameter that returns a boolean, as `document_service.py` catches its own errors, so the "❌ Failed to process" line of the handler's own `except` (workflow_execution_service.py:320-321) is not modelled. `document_service.py`, `vector_store.py` and `llm_service.py` are not part of this model.
- **Exceptions outside the handlers are not modelled.** The model covers well-formed node dictionaries only. These paths raise and are left out:
  - A stored node without an `"id"` key raises `KeyError` in the executor's constructor (workflow_execution_service.py:19). `execute_workflow`'s own `except` (513-519) then answers "Execution failed: " with the message.
  - A node whose `data` is `null` raises `AttributeError` in `_get_node_label` (220) while the order line is built. `execute`'s own `except` (93-101) then answers `success: False` with the log so far and a "💥 Execution failed" line. Inside a handler the same `null` is caught by the handler or by `_execute_node` (250-252) as a failed node.
  - A chain of nodes deeper than Python's recursion limit makes `dfs` (195-204) raise, with the same outcome through `execute`'s `except`.
  - The database session's own failures reach `execute_workflow`'s `except` too.
- **Null against absent.** A `null` where the executor reads a key with a default is merged with the absent key: a node's `type`, a file's `path` or `name`, and a node's `api-key`. For a `null` type, `_get_node_label` (224-231) gives `None` where the model's `NodeLabel` gives "unknown". For the `api-key`, a `null` makes `.strip()` raise (281, 371), which the handler's `except` turns into a failed node; the model treats it as an absent key.
- **The temperature.** `float(...)` of the configured temperature (369) can raise, for example for `""`, which would fail the LLM node; the model takes the printed value as given and never raises there.
- **The `debug_workflow` route** (workflow_execution.py:94-118) is not modelled, because nothing calls it.
- **Clocks.** The server's timestamps are a logical counter in the store and a string parameter in the chat reply. `datetime.now` formatting is not modelled. `CreateWorkflow` gives `created_at` and `updated_at` the same tick, where the database fills them from two clock readings.
- **Floating point.**
  - The temperature passed to the LLM is not modelled beyond its printed text in the log.
  - Canvas positions are `real` values.
  - `parseInt` returning `NaN` is `None`.
- **Python list text.** `QuotedList` always wraps items in single quotes. Python's `repr` switches to double quotes for an item containing `'` and escapes backslashes. So the list text in the "Config keys" and "Execution order" log lines matches Python only for keys and labels without quotes or backslashes.
- **Text.** Unicode whitespace and case folding are ASCII only in `Text.Trim` and `Text.Lower`. Python's `strip()` also removes the separators U+001C to U+001F, which `Text.Trim` keeps.
- **The drop counter.** The canvas's id counter restarts at 0 on every page load, so a dropped node can get the id of a node loaded from the server (`dndnode_0`); the model's counter only excludes ids it issued itself.
- **The router.** `App.tsx`'s route table is not part of this model. `ManagementPage.EditorPathRoundTrip` takes the route parameter to be the text after `/workflow/`.
- **React details.**
  - `screenToFlowPosition` is not modelled; the drop position is a parameter.
  - `addEdge`, the node and edge change handlers, and the drag-over handler are not modelled.
  - Effect dependencies are modelled as explicit render events, not by object identity.
  - Each page's loading and error views are not modelled.
- **React Query internals.**
  - Retry execution, query cancellation and garbage collection belong to the library and are not modelled; the retry delay and counts are.
  - `isPending` is modelled as a single flag, assuming one mutation at a time.
- `EditorPage.Message`: a `final_response` wrapped with metadata is modelled only as an object that is truthy, not by its fields.
- `AutoSave.Persistence.Settle`: the mutation's `isPending` is modelled as one in-flight flag. Overlapping saves are not distinguished.
