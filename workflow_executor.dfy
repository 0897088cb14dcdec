/** The server's `WorkflowExecutor`: the per-type node handlers over the
    execution state, the run over the execution order and
    `execute_workflow`'s guards. Retrieval and generation are calls into
    code outside the model; they are parameters that may return or raise. */
module WorkflowExecution {
  import opened Wrappers
  import opened WorkflowModel
  import opened ExecutionGraph
  import Text

  const DefaultEmbeddingModel := "text-embedding-3-small"
  const DefaultLlmModel := "gpt-4o-mini"
  /** The text the retriever returns when it finds nothing. */
  const NoRelevantContext := "No relevant context found."
  const LlmFallback := "I'm sorry, I couldn't generate a response to your query."
  const LlmErrorPrefix := "Sorry, I encountered an error: "
  const EchoPrefix := "Echo: "

  /** The `final_output` value: the text, or the text wrapped with the
      metadata record when the output node asks for it. */
  datatype FinalOutput =
    | Plain(text: string)
    | WithMetadata(response: string, contextUsed: bool, knowledgeProcessed: bool, documentsUploaded: bool)

  function ResponseText(o: FinalOutput): string {
    match o
    case Plain(text) => text
    case WithMetadata(response, _, _, _) => response
  }

  /** One call handed to `process_docs`. */
  datatype DocumentCall = DocumentCall(path: string, apiKey: Option<string>, embeddingModel: string)

  /** The `execution_state` dictionary. `kbApiKey` and `embeddingModel` are
      the keys the knowledge-base handler adds (`None` while absent).
      `documentCalls` is not a key of the dictionary: it records the files
      handed to `process_docs`, whose results the handler only logs. */
  datatype ExecState = ExecState(
    userQuery: string,
    context: Option<string>,
    llmResponse: Option<string>,
    finalOutput: Option<FinalOutput>,
    knowledgeProcessed: bool,
    documentsUploaded: bool,
    nodesExecuted: seq<string>,
    kbApiKey: Option<string>,
    embeddingModel: Option<string>,
    documentCalls: seq<DocumentCall>)

  /** The state `execute` starts from. */
  function InitialState(input: string): ExecState {
    ExecState(input, None, None, None, false, false, [], None, None, [])
  }

  /** The collaborators: `retrieve_context(query, api_key, embedding_model)`,
      `generate_response(query, context, custom_prompt, api_key, model)` and
      `process_docs(file_path, api_key, embedding_model)`, which catches its
      own errors and reports success as a boolean. */
  datatype Services = Services(
    retrieveContext: (string, Option<string>, string) -> Call<string>,
    generateResponse: (string, Option<string>, Option<string>, Option<string>, string) -> Call<string>,
    processDocs: (string, Option<string>, string) -> bool)

  /** What a handler leaves behind: the new state, whether it succeeded and
      the lines it logged, one per `self.log` call. */
  datatype Step = Step(state: ExecState, ok: bool, lines: seq<string>)

  // ---------------------------------------------------------------------
  // The handlers' log lines (without the timestamp prefix)

  /** The text a line shows for at most the first 200 characters. */
  function Preview(s: string): (r: string)
    ensures |s| <= 200 ==> r == s
    ensures |s| > 200 ==> r == s[..200] + "..."
  {
    if |s| > 200 then s[..200] + "..." else s
  }

  /** Python's `str()` of a list of strings. */
  function ListText(items: seq<string>): string {
    "[" + QuotedList(items) + "]"
  }

  /** Python's `str()` of an optional string. */
  function OptionText(s: Option<string>): string {
    s.GetOr("None")
  }

  const UserQueryStartLine := "📝 Processing user query..."
  function PreprocessedLine(query: string): string { "📝 Query preprocessed: " + query }
  const UserQueryDoneLine := "✅ User query processed successfully"

  const KnowledgeStartLine := "📚 Processing knowledge base..."
  const KnowledgeNoKeyLine := "❌ No API key provided for knowledge base. This is required for user-driven API key approach."
  /** The three debug lines both key-reading handlers log, after their
      own tag: the config's keys, the raw key and the stripped key. */
  function DebugLines(tag: string, cfg: NodeConfig): seq<string> {
    [tag + "Config keys: " + ListText(cfg.keys),
     tag + "Raw API key from config: '" + OptionText(cfg.apiKey) + "'",
     tag + "Stripped API key: '" + Text.Trim(cfg.apiKey.GetOr("")) + "'"]
  }
  const KnowledgeDebugTag := "🔍 Debug KB - "
  const LlmDebugTag := "🔍 Debug - "
  function EmbeddingModelLine(model: string): string { "🔑 Using provided API key for embeddings with model: " + model }
  /** The lines the knowledge-base handler logs about its configuration. */
  function KnowledgeKeyLines(cfg: NodeConfig): seq<string> {
    DebugLines(KnowledgeDebugTag, cfg)
      + [if KnowledgeApiKey(cfg).None? then KnowledgeNoKeyLine
         else EmbeddingModelLine(cfg.embeddingModel.GetOr(DefaultEmbeddingModel))]
  }
  function ProcessingLine(count: nat): string { "📄 Processing " + Text.NatToString(count) + " uploaded documents..." }
  function FileLine(name: string, processed: bool): string {
    if processed then "📄 Successfully processed " + name else "⚠️ Failed to process " + name
  }
  const DocumentsStoredLine := "💾 Documents processed and stored in vector database"
  function SearchLine(query: string): string { "🔍 Searching for relevant context for: " + query }
  function KnowledgeErrorLine(message: string): string { "❌ Knowledge base error: " + message }
  function ContextLine(context: string): string { "✅ Context retrieved: " + Preview(context) }
  const NoContextLine := "⚠️ No relevant context found"

  const LlmStartLine := "🤖 Generating LLM response..."
  const LlmOwnKeyLine := "🔑 Using API key from LLM Engine component"
  const LlmKnowledgeKeyLine := "🔑 Using API key from Knowledge Base component"
  const LlmNoKeyLine := "❌ No API key provided for LLM. This is required for user-driven API key approach."
  function ModelLine(model: string, temperature: string): string {
    "🤖 Using model: " + model + ", temperature: " + temperature
  }
  function ContextSizeLine(size: nat): string { "📚 Using context: " + Text.NatToString(size) + " characters" }
  const DirectQueryLine := "📝 No context available - direct query to LLM"
  /** The lines the LLM handler logs about its key: the debug lines, then
      where the key comes from. */
  function LlmKeyLines(st: ExecState, cfg: NodeConfig): seq<string> {
    DebugLines(LlmDebugTag, cfg)
      + [if !Text.IsBlank(cfg.apiKey.GetOr("")) then LlmOwnKeyLine
         else if Truthy(st.kbApiKey) then LlmKnowledgeKeyLine
         else LlmNoKeyLine]
  }
  /** The lines the LLM handler logs about its model and its context. */
  function LlmInputLines(st: ExecState, cfg: NodeConfig): seq<string> {
    [ModelLine(cfg.model.GetOr(DefaultLlmModel), cfg.temperature.GetOr("0.7")),
     if Truthy(st.context) then ContextSizeLine(|st.context.value|) else DirectQueryLine]
  }
  function LlmResponseLine(response: string): string { "✅ LLM response: " + Preview(response) }
  function LlmErrorLine(response: string): string { "❌ LLM error: " + response }
  function LlmEngineErrorLine(message: string): string { "❌ LLM engine error: " + message }

  const OutputStartLine := "📤 Formatting output..."
  const OutputDoneLine := "✅ Output formatted successfully"

  /** Concatenation regroups freely; the handler methods use it to match
      their log against the lines of the step they implement. */
  lemma AppendAssoc<T>(a: seq<T>, b: seq<T>, c: seq<T>)
    ensures a + (b + c) == (a + b) + c
  {
  }

  // ---------------------------------------------------------------------
  // The handlers as functions of the state

  /** `_execute_user_query_node`: always succeeds; with `preprocess` set the
      query loses its surrounding whitespace and is lower-cased. */
  function UserQueryStep(st: ExecState, cfg: NodeConfig): (r: Step)
    ensures r.ok
    ensures r.state == st.(userQuery := r.state.userQuery)
    ensures !cfg.preprocess ==> r.state == st && r.lines == [UserQueryStartLine, UserQueryDoneLine]
    ensures cfg.preprocess ==>
      var q, trimmed := r.state.userQuery, Text.Trim(st.userQuery);
      && |q| == |trimmed|
      && (forall i | 0 <= i < |q| :: q[i] == Text.LowerChar(trimmed[i]))
      && (q == [] || (!Text.IsSpace(q[0]) && !Text.IsSpace(q[|q| - 1])))
      && (q == "" <==> Text.AllSpace(st.userQuery))
      && r.lines == [UserQueryStartLine, PreprocessedLine(q), UserQueryDoneLine]
  {
    if cfg.preprocess then
      var q := Text.Lower(Text.Trim(st.userQuery));
      Step(st.(userQuery := q), true, [UserQueryStartLine, PreprocessedLine(q), UserQueryDoneLine])
    else Step(st, true, [UserQueryStartLine, UserQueryDoneLine])
  }

  /** The key the knowledge-base handler uses: the configured key without
      surrounding whitespace, `None` when nothing is left. */
  function KnowledgeApiKey(cfg: NodeConfig): (k: Option<string>)
    ensures k.None? <==> Text.IsBlank(cfg.apiKey.GetOr(""))
    ensures k.Some? ==> k.value == Text.Trim(cfg.apiKey.GetOr(""))
    ensures k.Some? ==> k.value != "" && !Text.IsSpace(k.value[0])
  {
    var key := Text.Trim(cfg.apiKey.GetOr(""));
    if key == "" then None else Some(key)
  }

  /** The files handed to `process_docs`: one call for each file with a
      non-empty path, carrying that path, and nothing else. The calls keep
      the list order (`DocumentCallsConcat`). */
  function DocumentCalls(files: seq<UploadedFile>, apiKey: Option<string>, model: string): (r: seq<DocumentCall>)
    ensures |r| <= |files|
    ensures forall c | c in r :: c.path != "" && c.apiKey == apiKey && c.embeddingModel == model
    ensures forall f | f in files && Truthy(f.path) :: DocumentCall(f.path.value, apiKey, model) in r
    ensures forall c | c in r :: exists f | f in files :: Truthy(f.path) && f.path.value == c.path
  {
    if files == [] then []
    else
      var init := files[..|files| - 1];
      var f := files[|files| - 1];
      assert files == init + [f];
      DocumentCalls(init, apiKey, model)
        + (if Truthy(f.path) then [DocumentCall(f.path.value, apiKey, model)] else [])
  }

  /** The calls for two lists of files in turn are the calls for the first
      followed by those for the second: the calls keep the files' order. */
  lemma {:induction false} DocumentCallsConcat(a: seq<UploadedFile>, b: seq<UploadedFile>, apiKey: Option<string>, model: string)
    ensures DocumentCalls(a + b, apiKey, model) == DocumentCalls(a, apiKey, model) + DocumentCalls(b, apiKey, model)
  {
    if b == [] {
      assert a + b == a;
    } else {
      var init := b[..|b| - 1];
      assert (a + b)[..|a + b| - 1] == a + init;
      assert (a + b)[|a + b| - 1] == b[|b| - 1];
      DocumentCallsConcat(a, init, apiKey, model);
    }
  }

  /** The per-file lines of the upload loop: one line for each file with a
      non-empty path, saying whether `process_docs` succeeded. */
  function FileLines(files: seq<UploadedFile>, apiKey: Option<string>, model: string, svc: Services): seq<string> {
    if files == [] then []
    else
      var f := files[|files| - 1];
      FileLines(files[..|files| - 1], apiKey, model, svc)
        + (if Truthy(f.path) then [FileLine(f.name.GetOr("unknown"), svc.processDocs(f.path.value, apiKey, model))] else [])
  }

  /** The upload loop logs one line per call it hands to `process_docs`. */
  lemma {:induction false} FileLinesMatchCalls(files: seq<UploadedFile>, apiKey: Option<string>, model: string, svc: Services)
    ensures |FileLines(files, apiKey, model, svc)| == |DocumentCalls(files, apiKey, model)|
  {
    if files != [] {
      FileLinesMatchCalls(files[..|files| - 1], apiKey, model, svc);
    }
  }

  /** Whether the retriever's text counts as context. */
  predicate UsefulContext(c: string) {
    c != "" && c != NoRelevantContext
  }

  /** Whether the knowledge-base node hands files to `process_docs`. */
  predicate HasUploads(cfg: NodeConfig) {
    cfg.hasFiles && cfg.uploadedFiles != []
  }

  /** The state after the knowledge-base handler has handed its uploaded
      files to `process_docs`: one call per file with a path, and
      `documents_uploaded` set, when the node says it has files and lists
      some. */
  function WithDocuments(st: ExecState, cfg: NodeConfig): ExecState {
    if HasUploads(cfg) then
      st.(documentCalls := st.documentCalls
            + DocumentCalls(cfg.uploadedFiles, KnowledgeApiKey(cfg), cfg.embeddingModel.GetOr(DefaultEmbeddingModel)),
          documentsUploaded := true)
    else st
  }

  /** The lines of the upload step. */
  function DocumentLines(cfg: NodeConfig, svc: Services): seq<string> {
    if HasUploads(cfg) then
      [ProcessingLine(|cfg.uploadedFiles|)]
        + FileLines(cfg.uploadedFiles, KnowledgeApiKey(cfg), cfg.embeddingModel.GetOr(DefaultEmbeddingModel), svc)
        + [DocumentsStoredLine]
    else []
  }

  /** `_execute_knowledge_base_node`: the uploads are processed first; the
      handler then fails exactly when retrieval raises. Useful context is
      stored together with the key and the embedding model the LLM handler
      may borrow; any other text clears the context. */
  function KnowledgeStep(st: ExecState, cfg: NodeConfig, svc: Services): (r: Step)
    ensures var model := cfg.embeddingModel.GetOr(DefaultEmbeddingModel);
      var call := svc.retrieveContext(st.userQuery, KnowledgeApiKey(cfg), model);
      && (r.ok <==> call.Returned?)
      && (r.ok ==> (r.state.context.Some? <==> UsefulContext(call.value)))
      && (r.ok && r.state.context.Some? ==>
            && r.state.context.value == call.value && r.state.knowledgeProcessed
            && r.state.kbApiKey == KnowledgeApiKey(cfg) && r.state.embeddingModel == Some(model))
      && (!(r.ok && r.state.context.Some?) ==>
            r.state.kbApiKey == st.kbApiKey && r.state.embeddingModel == st.embeddingModel)
      && r.state.documentCalls == st.documentCalls
           + (if HasUploads(cfg) then DocumentCalls(cfg.uploadedFiles, KnowledgeApiKey(cfg), model) else [])
      && r.lines == [KnowledgeStartLine] + KnowledgeKeyLines(cfg) + DocumentLines(cfg, svc)
           + [SearchLine(st.userQuery),
              if call.Raised? then KnowledgeErrorLine(call.message)
              else if UsefulContext(call.value) then ContextLine(call.value)
              else NoContextLine]
    ensures !r.ok ==> r.state.context == st.context && r.state.knowledgeProcessed == st.knowledgeProcessed
    ensures r.state.documentsUploaded == (st.documentsUploaded || HasUploads(cfg))
    ensures r.state.knowledgeProcessed ==> st.knowledgeProcessed || r.state.context.Some?
    ensures r.state == st.(context := r.state.context, knowledgeProcessed := r.state.knowledgeProcessed,
      documentsUploaded := r.state.documentsUploaded, kbApiKey := r.state.kbApiKey,
      embeddingModel := r.state.embeddingModel, documentCalls := r.state.documentCalls)
  {
    var apiKey := KnowledgeApiKey(cfg);
    var model := cfg.embeddingModel.GetOr(DefaultEmbeddingModel);
    var found := RetrievalStep(WithDocuments(st, cfg), svc.retrieveContext(st.userQuery, apiKey, model), apiKey, model);
    Step(found.state, found.ok,
      [KnowledgeStartLine] + KnowledgeKeyLines(cfg) + DocumentLines(cfg, svc) + [SearchLine(st.userQuery)] + found.lines)
  }

  /** The last part of the knowledge-base handler: what the retriever's
      answer `call` does to the state, and the one line it logs. */
  function RetrievalStep(st: ExecState, call: Call<string>, apiKey: Option<string>, model: string): (r: Step)
    ensures r.ok <==> call.Returned?
    ensures |r.lines| == 1
  {
    match call
    case Raised(m) => Step(st, false, [KnowledgeErrorLine(m)])
    case Returned(c) =>
      if UsefulContext(c) then
        Step(st.(context := Some(c), knowledgeProcessed := true, kbApiKey := apiKey, embeddingModel := Some(model)),
          true, [ContextLine(c)])
      else
        Step(st.(context := None), true, [NoContextLine])
  }

  /** The key the LLM handler uses: its own key without surrounding
      whitespace, else the knowledge base's key, else `None`. */
  function LlmApiKey(st: ExecState, cfg: NodeConfig): (k: Option<string>)
    ensures k.None? || k.value != ""
    ensures !Text.IsBlank(cfg.apiKey.GetOr("")) ==> k == KnowledgeApiKey(cfg)
    ensures Text.IsBlank(cfg.apiKey.GetOr("")) && Truthy(st.kbApiKey) ==> k == st.kbApiKey
    ensures Text.IsBlank(cfg.apiKey.GetOr("")) && !Truthy(st.kbApiKey) ==> k.None?
  {
    var own := Text.Trim(cfg.apiKey.GetOr(""));
    if own != "" then Some(own)
    else if Truthy(st.kbApiKey) then st.kbApiKey
    else None
  }

  /** The call the LLM handler makes. */
  function LlmCall(st: ExecState, cfg: NodeConfig, svc: Services): Call<string> {
    svc.generateResponse(st.userQuery, st.context, cfg.prompt, LlmApiKey(st, cfg), cfg.model.GetOr(DefaultLlmModel))
  }

  /** A generated text the LLM handler accepts. */
  predicate Usable(response: string) {
    response != "" && !Text.StartsWith(response, "Error:")
  }

  /** `_execute_llm_engine_node`: succeeds exactly when the call returns a
      usable text; the stored response is never empty, on failure it is the
      faulty text, the apology or the error message. */
  function LlmStep(st: ExecState, cfg: NodeConfig, svc: Services): (r: Step)
    ensures r.state == st.(llmResponse := r.state.llmResponse)
    ensures r.state.llmResponse.Some? && r.state.llmResponse.value != ""
    ensures var call := LlmCall(st, cfg, svc);
      && (r.ok <==> call.Returned? && Usable(call.value))
      && (r.ok ==> r.state.llmResponse == Some(call.value))
      && (call.Returned? && !Usable(call.value) ==>
            r.state.llmResponse == Some(if call.value == "" then LlmFallback else call.value))
      && (call.Raised? ==> r.state.llmResponse == Some(LlmErrorPrefix + call.message))
      && r.lines == [LlmStartLine] + LlmKeyLines(st, cfg) + LlmInputLines(st, cfg)
           + [if call.Raised? then LlmEngineErrorLine(call.message)
              else if Usable(call.value) then LlmResponseLine(call.value)
              else LlmErrorLine(call.value)]
  {
    var answer := AnswerStep(st, LlmCall(st, cfg, svc));
    Step(answer.state, answer.ok, [LlmStartLine] + LlmKeyLines(st, cfg) + LlmInputLines(st, cfg) + answer.lines)
  }

  /** The last part of the LLM handler: what the generator's answer `call`
      does to the state, and the one line it logs. */
  function AnswerStep(st: ExecState, call: Call<string>): (r: Step)
    ensures r.ok <==> call.Returned? && Usable(call.value)
    ensures |r.lines| == 1
  {
    match call
    case Returned(response) =>
      if Usable(response) then Step(st.(llmResponse := Some(response)), true, [LlmResponseLine(response)])
      else Step(st.(llmResponse := Some(if response == "" then LlmFallback else response)), false,
        [LlmErrorLine(response)])
    case Raised(message) =>
      Step(st.(llmResponse := Some(LlmErrorPrefix + message)), false, [LlmEngineErrorLine(message)])
  }

  /** `_execute_output_node`: always succeeds and always leaves a non-empty
      final text, the LLM response when there is one and the echoed query
      otherwise, wrapped with the metadata when `includeMetadata` is set. */
  function OutputStep(st: ExecState, cfg: NodeConfig): (r: Step)
    ensures r.ok
    ensures r.state == st.(finalOutput := r.state.finalOutput)
    ensures r.state.finalOutput.Some?
    ensures ResponseText(r.state.finalOutput.value) != ""
    ensures Truthy(st.llmResponse) ==> ResponseText(r.state.finalOutput.value) == st.llmResponse.value
    ensures !Truthy(st.llmResponse) ==> ResponseText(r.state.finalOutput.value) == EchoPrefix + st.userQuery
    ensures r.state.finalOutput.value.WithMetadata? <==> cfg.includeMetadata
    ensures r.state.finalOutput.value.WithMetadata? ==>
      && r.state.finalOutput.value.contextUsed == st.context.Some?
      && r.state.finalOutput.value.knowledgeProcessed == st.knowledgeProcessed
      && r.state.finalOutput.value.documentsUploaded == st.documentsUploaded
    ensures r.lines == [OutputStartLine, OutputDoneLine]
  {
    var text := if Truthy(st.llmResponse) then st.llmResponse.value else EchoPrefix + st.userQuery;
    var output :=
      if cfg.includeMetadata then WithMetadata(text, st.context.Some?, st.knowledgeProcessed, st.documentsUploaded)
      else Plain(text);
    Step(st.(finalOutput := Some(output)), true, [OutputStartLine, OutputDoneLine])
  }

  /** One of the four node types the executor has a handler for. */
  predicate KnownType(kind: Option<string>) {
    kind == Some(UserQueryType) || kind == Some(KnowledgeBaseType)
      || kind == Some(LlmEngineType) || kind == Some(OutputType)
  }

  /** `_execute_node`: the handler for the node's type; a node of any other
      type fails, changes nothing and logs the type. */
  function NodeStep(n: Node, st: ExecState, svc: Services): (r: Step)
    ensures !KnownType(n.kind) ==> r == Step(st, false, UnknownTypeLines(n.kind))
    ensures r.state.nodesExecuted == st.nodesExecuted
    ensures n.kind != Some(OutputType) ==> r.state.finalOutput == st.finalOutput
    ensures n.kind == Some(OutputType) ==> r.ok && r.state.finalOutput.Some?
    ensures n.kind == Some(UserQueryType) ==> r.ok
  {
    if n.kind == Some(UserQueryType) then UserQueryStep(st, n.config)
    else if n.kind == Some(KnowledgeBaseType) then KnowledgeStep(st, n.config, svc)
    else if n.kind == Some(LlmEngineType) then LlmStep(st, n.config, svc)
    else if n.kind == Some(OutputType) then OutputStep(st, n.config)
    else Step(st, false, UnknownTypeLines(n.kind))
  }

  // ---------------------------------------------------------------------
  // The run's own log lines (without the timestamp prefix)

  /** Python's `str()` of the node type. */
  function TypeText(kind: Option<string>): string {
    kind.GetOr("None")
  }

  function StartLine(name: string): string { "🚀 Starting workflow: " + name }
  function InputLine(input: string): string { "📝 User input: " + input }
  function PatternLine(p: Option<PipelinePattern>): string {
    "🔄 Detected pattern: " + (if p.Some? then PatternName(p.value) else "None")
  }

  /** The labels of a list, quoted and comma-separated as Python prints a
      list of strings. */
  function QuotedList(items: seq<string>): string {
    if items == [] then ""
    else if |items| == 1 then "'" + items[0] + "'"
    else QuotedList(items[..|items| - 1]) + ", '" + items[|items| - 1] + "'"
  }

  function OrderLine(t: seq<Node>, order: seq<string>): string {
    "📋 Execution order: [" + QuotedList(seq(|order|, i requires 0 <= i < |order| => NodeLabel(t, order[i]))) + "]"
  }

  function ExecutingLine(name: string, kind: Option<string>): string {
    "⚡ Executing: " + name + " (" + TypeText(kind) + ")"
  }
  function UnknownTypeLines(kind: Option<string>): seq<string> {
    ["⚠️ Unknown node type: " + TypeText(kind)]
  }
  function CompletedLine(name: string): string { "✅ " + name + " completed successfully" }
  function FailedLine(name: string): string { "⚠️ " + name + " failed, continuing with workflow..." }

  /** The four lines `execute` logs before running the nodes. */
  function HeaderLines(name: string, input: string, pattern: Option<PipelinePattern>, t: seq<Node>, order: seq<string>): seq<string> {
    [StartLine(name), InputLine(input), PatternLine(pattern), OrderLine(t, order)]
  }

  // ---------------------------------------------------------------------
  // The run over the execution order

  /** The state and the log after running some of the order. */
  datatype Run = Run(state: ExecState, log: seq<string>)

  /** One pass of the loop of `execute`: an id that is not a node is
      skipped; any other node runs its handler and is recorded in
      `nodesExecuted` when the handler succeeds. */
  function RunStep(t: seq<Node>, id: string, prev: Run, svc: Services): (r: Run)
    ensures prev.log <= r.log
    ensures prev.state.nodesExecuted <= r.state.nodesExecuted
    ensures |r.state.nodesExecuted| <= |prev.state.nodesExecuted| + 1
    ensures |r.state.nodesExecuted| == |prev.state.nodesExecuted| + 1 ==>
      r.state.nodesExecuted[|prev.state.nodesExecuted|] == id && KnownType(KindOf(t, id))
    ensures KindOf(t, id) != Some(OutputType) ==> r.state.finalOutput == prev.state.finalOutput
    ensures KindOf(t, id) == Some(OutputType) ==> r.state.finalOutput.Some?
  {
    match Lookup(t, id)
    case None => prev
    case Some(n) =>
      var shown := NodeLabel(t, id);
      var step := NodeStep(n, prev.state, svc);
      var log := prev.log + [ExecutingLine(shown, n.kind)] + step.lines;
      if step.ok then
        Run(step.state.(nodesExecuted := step.state.nodesExecuted + [id]), log + [CompletedLine(shown)])
      else
        Run(step.state, log + [FailedLine(shown)])
  }

  /** The loop of `execute` over `order`, from `start`: a failing handler
      never stops it. */
  function RunNodes(t: seq<Node>, order: seq<string>, start: Run, svc: Services): Run {
    if order == [] then start
    else RunStep(t, order[|order| - 1], RunNodes(t, order[..|order| - 1], start, svc), svc)
  }

  /** The adjacency list of a table: an entry for each node id and no
      other, listing a target under a node exactly when some edge with
      non-empty ends leads from that node to it. */
  function Graph(t: seq<Node>, es: seq<Edge>): (g: map<string, seq<string>>)
    ensures g.Keys == Ids(t)
    ensures forall id, x | id in g :: x in g[id] <==> exists k | 0 <= k < |es| :: Links(es[k], id) && es[k].target.value == x
  {
    var g := map id | id in Ids(t) :: TargetsFrom(es, id);
    assert forall id, x | id in g :: x in g[id] <==> exists k | 0 <= k < |es| :: Links(es[k], id) && es[k].target.value == x by {
      forall id, x | id in g
        ensures x in g[id] <==> exists k | 0 <= k < |es| :: Links(es[k], id) && es[k].target.value == x
      {
        TargetsFromMembership(es, id, x);
      }
    }
    g
  }

  /** The dictionary `execute` and `execute_workflow` return. A successful
      run reports `final_response` as the stored `final_output`, `None` when
      no output node ran. */
  datatype ExecutionResult =
    | Succeeded(
        workflowId: int,
        workflowName: string,
        userQuery: string,
        finalResponse: Option<FinalOutput>,
        contextUsed: bool,
        knowledgeProcessed: bool,
        pattern: Option<PipelinePattern>,
        nodesExecuted: nat,
        executionLog: seq<string>)
    | Failed(workflowId: int, error: string)

  /** The run `execute` makes over the table `t` and the edges `es` of the
      workflow `name`, when the log already holds `prefix`. */
  function ExecuteRun(name: string, t: seq<Node>, es: seq<Edge>, input: string, prefix: seq<string>, svc: Services): Run {
    var order := ExecutionOrder(t, Graph(t, es));
    RunNodes(t, order, Run(InitialState(input), prefix + HeaderLines(name, input, Pattern(t, es), t, order)), svc)
  }

  /** The run of a fresh executor over a stored workflow. */
  function WorkflowRun(w: WorkflowRecord, input: string, svc: Services): Run {
    ExecuteRun(w.name, NodeTable(w.nodes), w.edges, input, [], svc)
  }

  /** The success dictionary `execute` builds from the state and the log a
      run ends with. */
  function Report(id: int, name: string, input: string, pattern: Option<PipelinePattern>, run: Run): ExecutionResult {
    Succeeded(id, name, input, run.state.finalOutput, run.state.context.Some?,
      run.state.knowledgeProcessed, pattern, |run.state.nodesExecuted|, run.log)
  }

  /** The result of running a stored workflow on a fresh executor. */
  function Outcome(w: WorkflowRecord, input: string, svc: Services): ExecutionResult {
    Report(w.id, w.name, input, Pattern(NodeTable(w.nodes), w.edges), WorkflowRun(w, input, svc))
  }

  function NotFoundMessage(id: int): string {
    "Workflow " + Text.IntToString(id) + " not found"
  }
  const NoNodesMessage := "Workflow has no nodes to execute"

  /** `execute_workflow`: an unknown id and a workflow without nodes fail
      before any executor is built; every other workflow runs. */
  function WorkflowOutcome(db: map<int, WorkflowRecord>, id: int, input: string, svc: Services): (r: ExecutionResult)
    ensures r.Failed? <==> id !in db || db[id].nodes == []
    ensures r.Failed? ==> r.workflowId == id
    ensures id !in db ==> r.error == NotFoundMessage(id)
    ensures id in db && db[id].nodes == [] ==> r.error == NoNodesMessage
  {
    if id !in db then Failed(id, NotFoundMessage(id))
    else if db[id].nodes == [] then Failed(id, NoNodesMessage)
    else Outcome(db[id], input, svc)
  }

  // ---------------------------------------------------------------------
  // Properties of a run

  /** `nodes_executed` only grows, and only by ids of the order whose node
      has one of the four types; the log only grows. */
  lemma {:induction false} RunExecuted(t: seq<Node>, order: seq<string>, start: Run, svc: Services)
    ensures var r := RunNodes(t, order, start, svc);
      var ex := r.state.nodesExecuted;
      && start.log <= r.log
      && start.state.nodesExecuted <= ex
      && |ex| <= |start.state.nodesExecuted| + |order|
      && forall i | |start.state.nodesExecuted| <= i < |ex| :: ex[i] in order && KnownType(KindOf(t, ex[i]))
  {
    if order != [] {
      var init := order[..|order| - 1];
      RunExecuted(t, init, start, svc);
      var prev := RunNodes(t, init, start, svc).state.nodesExecuted;
      forall i | |start.state.nodesExecuted| <= i < |prev|
        ensures prev[i] in order
      {
        assert prev[i] in init;
      }
    }
  }

  /** With a repetition-free order and nothing executed before, every node
      is recorded at most once. */
  lemma {:induction false} RunExecutedDistinct(t: seq<Node>, order: seq<string>, start: Run, svc: Services)
    requires Distinct(order) && start.state.nodesExecuted == []
    ensures Distinct(RunNodes(t, order, start, svc).state.nodesExecuted)
  {
    if order != [] {
      var init := order[..|order| - 1];
      RunExecutedDistinct(t, init, start, svc);
      RunExecuted(t, init, start, svc);
      var prev := RunNodes(t, init, start, svc).state.nodesExecuted;
      var last := order[|order| - 1];
      assert last !in init;
      DistinctConcat(prev, [last]);
    }
  }

  /** The final output is set exactly when an output node runs: it is left
      as it was when the order holds no output node. */
  lemma {:induction false} RunFinalOutput(t: seq<Node>, order: seq<string>, start: Run, svc: Services)
    ensures (forall id | id in order :: KindOf(t, id) != Some(OutputType)) ==>
      RunNodes(t, order, start, svc).state.finalOutput == start.state.finalOutput
    ensures (exists id | id in order :: KindOf(t, id) == Some(OutputType)) ==>
      RunNodes(t, order, start, svc).state.finalOutput.Some?
  {
    if order != [] {
      var init := order[..|order| - 1];
      var last := order[|order| - 1];
      RunFinalOutput(t, init, start, svc);
      if exists id | id in order :: KindOf(t, id) == Some(OutputType) {
        var id :| id in order && KindOf(t, id) == Some(OutputType);
        if id != last {
          assert id in init;
        }
      }
    }
  }

  /** Whenever a final output is present after a run that started without
      one, its text is not empty. */
  lemma {:induction false} RunFinalOutputText(t: seq<Node>, order: seq<string>, start: Run, svc: Services)
    requires start.state.finalOutput.None?
    ensures var out := RunNodes(t, order, start, svc).state.finalOutput;
      out.Some? ==> ResponseText(out.value) != ""
  {
    if order != [] {
      RunFinalOutputText(t, order[..|order| - 1], start, svc);
    }
  }

  /** When every generation call raises (as the keyword arguments the
      executor passes make it do), no LLM node is ever recorded as
      executed. */
  lemma {:induction false} LlmNeverSucceedsWhenGenerationRaises(t: seq<Node>, order: seq<string>, start: Run, svc: Services)
    requires forall q, c, p, k, m :: svc.generateResponse(q, c, p, k, m).Raised?
    ensures var ex := RunNodes(t, order, start, svc).state.nodesExecuted;
      forall i | |start.state.nodesExecuted| <= i < |ex| :: KindOf(t, ex[i]) != Some(LlmEngineType)
  {
    if order != [] {
      var init := order[..|order| - 1];
      LlmNeverSucceedsWhenGenerationRaises(t, init, start, svc);
      RunExecuted(t, init, start, svc);
    }
  }

  /** The visited set and the order after `dfs(v)`, from `visited` and the
      order `done` so far. */
  function DfsAppend(g: map<string, seq<string>>, ids: set<string>, v: string, visited: set<string>, done: seq<string>): (set<string>, seq<string>)
    requires visited <= ids
  {
    var r := Dfs(g, ids, v, visited);
    (r.0, done + r.1)
  }

  /** The same for `dfs` called on each of `ns` in turn. */
  function DfsListAppend(g: map<string, seq<string>>, ids: set<string>, ns: seq<string>, visited: set<string>, done: seq<string>): (set<string>, seq<string>)
    requires visited <= ids
  {
    var r := DfsList(g, ids, ns, visited);
    (r.0, done + r.1)
  }

  lemma DfsAppendUnfold(g: map<string, seq<string>>, ids: set<string>, v: string, visited: set<string>, done: seq<string>)
    requires visited <= ids && v !in visited && v in ids
    ensures DfsAppend(g, ids, v, visited, done) == DfsListAppend(g, ids, Succ(g, v)[0..], visited + {v}, done + [v])
  {
    assert Succ(g, v)[0..] == Succ(g, v);
    var r := DfsList(g, ids, Succ(g, v), visited + {v});
    assert done + ([v] + r.1) == (done + [v]) + r.1;
  }

  /** Marking `v` visited leaves fewer ids to visit. */
  lemma FewerUnvisited(ids: set<string>, visited: set<string>, v: string, visited': set<string>)
    requires v in ids && v !in visited && visited + {v} <= visited' <= ids
    ensures |ids - visited'| < |ids - visited|
  {
    CardMono(ids - visited', ids - (visited + {v}));
    assert ids - (visited + {v}) == (ids - visited) - {v};
  }

  lemma DfsListAppendDone(g: map<string, seq<string>>, ids: set<string>, ns: seq<string>, visited: set<string>, done: seq<string>)
    requires visited <= ids
    ensures DfsListAppend(g, ids, ns[|ns|..], visited, done) == (visited, done)
  {
    assert ns[|ns|..] == [];
    assert done + [] == done;
  }

  /** Walking `ns[i..]` is walking from `ns[i]` and then the rest. */
  lemma DfsListAppendStep(g: map<string, seq<string>>, ids: set<string>, ns: seq<string>, i: nat, visited: set<string>, done: seq<string>)
    requires i < |ns| && visited <= ids
    ensures var f := DfsAppend(g, ids, ns[i], visited, done);
      DfsListAppend(g, ids, ns[i..], visited, done) == DfsListAppend(g, ids, ns[i + 1..], f.0, f.1)
  {
    assert ns[i..][0] == ns[i] && ns[i..][1..] == ns[i + 1..];
    var f := Dfs(g, ids, ns[i], visited);
    var r := DfsList(g, ids, ns[i + 1..], f.0);
    assert done + (f.1 + r.1) == (done + f.1) + r.1;
  }

  /** The fallback order is the four type groups in turn. */
  lemma FallbackGroups(t: seq<Node>)
    ensures TypeGroups(t, [UserQueryType, KnowledgeBaseType, LlmEngineType, OutputType]) == FallbackOrder(t)
  {
    var k1 := [UserQueryType];
    var k2 := k1 + [KnowledgeBaseType];
    var k3 := k2 + [LlmEngineType];
    var k4 := k3 + [OutputType];
    assert k1[..0] == [] && k2[..1] == k1 && k3[..2] == k2 && k4[..3] == k3;
    assert TypeGroups(t, k1) == IdsOfType(t, UserQueryType) by {
      assert TypeGroups(t, k1) == [] + IdsOfType(t, UserQueryType);
    }
    assert TypeGroups(t, k2) == TypeGroups(t, k1) + IdsOfType(t, KnowledgeBaseType);
    assert TypeGroups(t, k3) == TypeGroups(t, k2) + IdsOfType(t, LlmEngineType);
    assert TypeGroups(t, k4) == TypeGroups(t, k3) + IdsOfType(t, OutputType);
    assert k4 == [UserQueryType, KnowledgeBaseType, LlmEngineType, OutputType];
  }

  lemma {:induction false} LookupMember(t: seq<Node>, n: Node)
    requires DistinctIds(t) && n in t
    ensures Lookup(t, n.id) == Some(n)
  {
    if t[0] != n {
      assert n in t[1..];
      LookupMember(t[1..], n);
    }
  }

  /** The execution order holds every node of the four handled types: the
      depth-first order holds every node, the fallback every node of those
      types. */
  lemma OrderHoldsHandledNodes(t: seq<Node>, g: map<string, seq<string>>, n: Node)
    requires DistinctIds(t) && n in t && KnownType(n.kind)
    ensures n.id in ExecutionOrder(t, g)
  {
    LookupMember(t, n);
    var order := ExecutionOrder(t, g);
    if Truthy(FirstOfType(t, UserQueryType)) {
      DepthFirstOrder(t, g);
      DistinctIdSeq(t);
      assert n.id in multiset(IdSeq(t));
    } else {
      FallbackOrderFacts(t);
    }
  }

  /** `final_response` is `None` exactly when the node dictionary holds no
      output node (a later node with the same id replaces an output node
      of the stored list). */
  lemma FinalResponseNoneIffNoOutputNode(w: WorkflowRecord, input: string, svc: Services)
    ensures Outcome(w, input, svc).finalResponse.None? <==> !HasType(NodeTable(w.nodes), OutputType)
  {
    var t := NodeTable(w.nodes);
    var g := Graph(t, w.edges);
    var order := ExecutionOrder(t, g);
    var start := Run(InitialState(input), [] + HeaderLines(w.name, input, Pattern(t, w.edges), t, order));
    RunFinalOutput(t, order, start, svc);
    if HasType(t, OutputType) {
      var n :| n in t && n.kind == Some(OutputType);
      LookupMember(t, n);
      OrderHoldsHandledNodes(t, g, n);
    } else {
      forall id | id in order
        ensures KindOf(t, id) != Some(OutputType)
      {
        if Lookup(t, id).Some? {
          assert Lookup(t, id).value in t;
        }
      }
    }
  }

  // ---------------------------------------------------------------------
  // The adjacency list

  /** `_build_execution_graph`: an empty list for every node id, then each
      edge whose ends are both non-empty and whose source is a node adds its
      target to the source's list. */
  method BuildExecutionGraph(t: seq<Node>, es: seq<Edge>) returns (g: map<string, seq<string>>)
    ensures g == Graph(t, es)
  {
    g := map[];
    for i := 0 to |t|
      invariant g.Keys == Ids(t[..i])
      invariant forall id | id in g :: g[id] == []
    {
      assert Ids(t[..i + 1]) == Ids(t[..i]) + {t[i].id} by {
        assert t[..i + 1] == t[..i] + [t[i]];
      }
      g := g[t[i].id := []];
    }
    assert t[..|t|] == t;
    for j := 0 to |es|
      invariant g.Keys == Ids(t)
      invariant forall id | id in g :: g[id] == TargetsFrom(es[..j], id)
    {
      var e := es[j];
      assert es[..j + 1][..j] == es[..j];
      if Truthy(e.source) && Truthy(e.target) && e.source.value in g {
        g := g[e.source.value := g[e.source.value] + [e.target.value]];
      }
    }
    assert es[..|es|] == es;
  }

  /** The nested `dfs` of `_get_execution_order`, which reads the executor's
      adjacency list `g` and node ids `ids`: visits `v` and, depth first,
      what it leads to, adding to `visited` and `order`. */
  method DfsVisit(g: map<string, seq<string>>, ids: set<string>, v: string, visited: set<string>, order: seq<string>)
    returns (visited': set<string>, order': seq<string>)
    requires visited <= ids
    ensures (visited', order') == DfsAppend(g, ids, v, visited, order)
    decreases |ids - visited|
  {
    if v in visited || v !in ids {
      assert order + [] == order;
      return visited, order;
    }
    visited' := visited + {v};
    order' := order + [v];
    var neighbors := Succ(g, v);
    DfsAppendUnfold(g, ids, v, visited, order);
    ghost var goal := DfsListAppend(g, ids, neighbors[0..], visited', order');
    for i := 0 to |neighbors|
      invariant visited + {v} <= visited' <= ids
      invariant DfsListAppend(g, ids, neighbors[i..], visited', order') == goal
    {
      DfsListAppendStep(g, ids, neighbors, i, visited', order');
      FewerUnvisited(ids, visited, v, visited');
      visited', order' := DfsVisit(g, ids, neighbors[i], visited', order');
    }
    DfsListAppendDone(g, ids, neighbors, visited', order');
  }

  // ---------------------------------------------------------------------
  // The executor object

  class WorkflowExecutor {
    const workflowId: int
    const workflowName: string
    /** `self.nodes`: the id-to-node dictionary, as its items in order. */
    const nodes: seq<Node>
    const edges: seq<Edge>
    const graph: map<string, seq<string>>
    /** `self.execution_state`. */
    var state: ExecState
    /** `self.execution_log`, without timestamps. */
    var log: seq<string>

    ghost predicate Valid()
      reads this
    {
      DistinctIds(nodes) && graph == Graph(nodes, edges)
    }

    /** `__init__`: the node dictionary, the edges and the adjacency list.
        The state dictionary starts empty; `execute` fills it. */
    constructor (w: WorkflowRecord)
      ensures Valid()
      ensures workflowId == w.id && workflowName == w.name
      ensures nodes == NodeTable(w.nodes) && edges == w.edges
      ensures log == []
    {
      workflowId := w.id;
      workflowName := w.name;
      nodes := NodeTable(w.nodes);
      edges := w.edges;
      var g := BuildExecutionGraph(NodeTable(w.nodes), w.edges);
      graph := g;
      state := InitialState("");
      log := [];
    }

    /** `_analyze_workflow_pattern`: which of the four types occur, and
        which edges leave the user-query node. */
    method AnalyzeWorkflowPattern() returns (p: Option<PipelinePattern>)
      ensures p == Pattern(nodes, edges)
    {
      var nodeTypes := seq(|nodes|, i requires 0 <= i < |nodes| => nodes[i].kind);
      assert forall k :: Some(k) in nodeTypes <==> HasType(nodes, k) by {
        forall k ensures Some(k) in nodeTypes <==> HasType(nodes, k) {
          if HasType(nodes, k) {
            var n :| n in nodes && n.kind == Some(k);
            var i :| 0 <= i < |nodes| && nodes[i] == n;
            assert nodeTypes[i] == Some(k);
          }
        }
      }
      var hasUserQuery := Some(UserQueryType) in nodeTypes;
      var hasKnowledge := Some(KnowledgeBaseType) in nodeTypes;
      var hasLlm := Some(LlmEngineType) in nodeTypes;
      var hasOutput := Some(OutputType) in nodeTypes;
      var userQueryNode, llmNode, knowledgeNode := LastNodesOfTypes();
      var directToLlm, throughKnowledge := false, false;
      if Truthy(userQueryNode) && Truthy(llmNode) {
        directToLlm, throughKnowledge := ScanUserQueryEdges(userQueryNode, llmNode, knowledgeNode);
      }
      assert directToLlm == DirectToLlm(nodes, edges);
      assert throughKnowledge == ThroughKnowledge(nodes, edges);
      p := Classify(hasUserQuery, hasKnowledge, hasLlm, hasOutput, directToLlm, throughKnowledge);
    }

    /** The node loop of `_analyze_workflow_pattern`: the last node id of
        each of three types. */
    method LastNodesOfTypes() returns (userQueryNode: Option<string>, llmNode: Option<string>, knowledgeNode: Option<string>)
      ensures userQueryNode == LastOfType(nodes, UserQueryType)
      ensures llmNode == LastOfType(nodes, LlmEngineType)
      ensures knowledgeNode == LastOfType(nodes, KnowledgeBaseType)
    {
      userQueryNode, llmNode, knowledgeNode := None, None, None;
      for i := 0 to |nodes|
        invariant userQueryNode == LastOfType(nodes[..i], UserQueryType)
        invariant llmNode == LastOfType(nodes[..i], LlmEngineType)
        invariant knowledgeNode == LastOfType(nodes[..i], KnowledgeBaseType)
      {
        assert nodes[..i + 1][..i] == nodes[..i];
        var n := nodes[i];
        if n.kind == Some(UserQueryType) {
          userQueryNode := Some(n.id);
        } else if n.kind == Some(LlmEngineType) {
          llmNode := Some(n.id);
        } else if n.kind == Some(KnowledgeBaseType) {
          knowledgeNode := Some(n.id);
        }
      }
      assert nodes[..|nodes|] == nodes;
    }

    /** The edge loop of `_analyze_workflow_pattern`: whether an edge goes
        from the user-query node to the LLM node, and whether one goes from
        it to the knowledge-base node instead. */
    method ScanUserQueryEdges(userQueryNode: Option<string>, llmNode: Option<string>, knowledgeNode: Option<string>)
      returns (directToLlm: bool, throughKnowledge: bool)
      ensures directToLlm <==> exists e | e in edges :: e.source == userQueryNode && e.target == llmNode
      ensures throughKnowledge <==> exists e | e in edges ::
        e.source == userQueryNode && e.target != llmNode && e.target == knowledgeNode
    {
      directToLlm, throughKnowledge := false, false;
      for j := 0 to |edges|
        invariant directToLlm <==> exists e | e in edges[..j] :: e.source == userQueryNode && e.target == llmNode
        invariant throughKnowledge <==> exists e | e in edges[..j] ::
          e.source == userQueryNode && e.target != llmNode && e.target == knowledgeNode
      {
        var e := edges[j];
        assert edges[..j + 1] == edges[..j] + [e];
        if e.source == userQueryNode && e.target == llmNode {
          directToLlm := true;
        } else if e.source == userQueryNode && e.target == knowledgeNode {
          throughKnowledge := true;
        }
      }
      assert edges[..|edges|] == edges;
    }

    /** `_get_execution_order`: a depth-first walk from the first user-query
        node followed by the nodes it does not reach, or, without a
        user-query node, the nodes grouped by type. */
    method GetExecutionOrder() returns (order: seq<string>)
      ensures order == ExecutionOrder(nodes, graph)
    {
      var startNode := FindStartNode();
      if !Truthy(startNode) {
        order := TypeOrderFallback();
        return;
      }
      var visited, walk := DfsVisit(graph, Ids(nodes), startNode.value, {}, []);
      assert [] + Dfs(graph, Ids(nodes), startNode.value, {}).1 == Dfs(graph, Ids(nodes), startNode.value, {}).1;
      order := AppendUnvisited(walk, visited);
    }

    /** The search for the first user-query node of `_get_execution_order`. */
    method FindStartNode() returns (startNode: Option<string>)
      ensures startNode == FirstOfType(nodes, UserQueryType)
    {
      startNode := None;
      for i := 0 to |nodes|
        invariant startNode.None? ==> forall j | 0 <= j < i :: nodes[j].kind != Some(UserQueryType)
        invariant startNode == FirstOfType(nodes, UserQueryType) || startNode.None?
      {
        if nodes[i].kind == Some(UserQueryType) {
          FirstOfTypeAt(nodes, UserQueryType, i);
          startNode := Some(nodes[i].id);
          break;
        }
      }
      if startNode.None? {
        assert !HasType(nodes, UserQueryType);
      }
    }

    /** The fallback of `_get_execution_order`: the ids of each of the four
        types in turn, in table order. */
    method TypeOrderFallback() returns (order: seq<string>)
      ensures order == FallbackOrder(nodes)
    {
      var typeOrder := [UserQueryType, KnowledgeBaseType, LlmEngineType, OutputType];
      order := [];
      for k := 0 to |typeOrder|
        invariant order == TypeGroups(nodes, typeOrder[..k])
      {
        assert typeOrder[..k + 1][..k] == typeOrder[..k];
        for j := 0 to |nodes|
          invariant order == TypeGroups(nodes, typeOrder[..k]) + IdsOfType(nodes[..j], typeOrder[k])
        {
          assert nodes[..j + 1][..j] == nodes[..j];
          if nodes[j].kind == Some(typeOrder[k]) {
            order := order + [nodes[j].id];
          }
        }
        assert nodes[..|nodes|] == nodes;
      }
      assert typeOrder[..|typeOrder|] == typeOrder;
      FallbackGroups(nodes);
    }

    /** The last loop of `_get_execution_order`: the nodes the walk did not
        visit go after it, in table order. */
    method AppendUnvisited(walk: seq<string>, visited: set<string>) returns (order: seq<string>)
      ensures order == walk + Unvisited(nodes, visited)
    {
      order := walk;
      for j := 0 to |nodes|
        invariant order == walk + Unvisited(nodes[..j], visited)
      {
        assert nodes[..j + 1][..j] == nodes[..j];
        if nodes[j].id !in visited {
          order := order + [nodes[j].id];
        }
      }
      assert nodes[..|nodes|] == nodes;
    }

    /** `_execute_user_query_node`. */
    method ExecuteUserQueryNode(n: Node) returns (ok: bool)
      modifies this
      ensures var r := UserQueryStep(old(state), n.config);
        state == r.state && ok == r.ok && log == old(log) + r.lines
    {
      log := log + [UserQueryStartLine];
      if n.config.preprocess {
        var query := Text.Lower(Text.Trim(state.userQuery));
        state := state.(userQuery := query);
        log := log + [PreprocessedLine(query)];
      }
      log := log + [UserQueryDoneLine];
      return true;
    }

    /** `_execute_knowledge_base_node`: the uploaded files go to
        `process_docs`, then the context is retrieved. */
    method ExecuteKnowledgeBaseNode(n: Node, svc: Services) returns (ok: bool)
      modifies this
      ensures var r := KnowledgeStep(old(state), n.config, svc);
        state == r.state && ok == r.ok && log == old(log) + r.lines
    {
      var cfg, query := n.config, state.userQuery;
      var model := cfg.embeddingModel.GetOr(DefaultEmbeddingModel);
      log := log + [KnowledgeStartLine];
      var apiKey := KnowledgeKey(cfg);
      AppendAssoc(old(log), [KnowledgeStartLine], KnowledgeKeyLines(cfg));
      ghost var lines := [KnowledgeStartLine] + KnowledgeKeyLines(cfg);
      UploadDocuments(cfg, apiKey, model, svc);
      AppendAssoc(old(log), lines, DocumentLines(cfg, svc));
      lines := lines + DocumentLines(cfg, svc);
      log := log + [SearchLine(query)];
      AppendAssoc(old(log), lines, [SearchLine(query)]);
      lines := lines + [SearchLine(query)];
      ok := RecordRetrieval(svc.retrieveContext(query, apiKey, model), apiKey, model);
      AppendAssoc(old(log), lines, log[|old(log)| + |lines|..]);
    }

    /** The end of `_execute_knowledge_base_node`: the retriever's answer
        stored and logged. */
    method RecordRetrieval(call: Call<string>, apiKey: Option<string>, model: string) returns (ok: bool)
      modifies this
      ensures var r := RetrievalStep(old(state), call, apiKey, model);
        state == r.state && ok == r.ok && log == old(log) + r.lines
    {
      match call
      case Raised(message) =>
        log := log + [KnowledgeErrorLine(message)];
        return false;
      case Returned(context) =>
        if UsefulContext(context) {
          state := state.(context := Some(context), knowledgeProcessed := true,
            kbApiKey := apiKey, embeddingModel := Some(model));
          log := log + [ContextLine(context)];
        } else {
          log := log + [NoContextLine];
          state := state.(context := None);
        }
        return true;
    }

    /** The key handling of `_execute_knowledge_base_node`: the stripped
        key, `None` when nothing is left, with its debug lines. */
    method KnowledgeKey(cfg: NodeConfig) returns (apiKey: Option<string>)
      modifies this
      ensures apiKey == KnowledgeApiKey(cfg)
      ensures state == old(state) && log == old(log) + KnowledgeKeyLines(cfg)
    {
      var stripped := Text.Trim(cfg.apiKey.GetOr(""));
      log := log + DebugLines(KnowledgeDebugTag, cfg);
      if stripped == "" {
        log := log + [KnowledgeNoKeyLine];
        apiKey := None;
      } else {
        log := log + [EmbeddingModelLine(cfg.embeddingModel.GetOr(DefaultEmbeddingModel))];
        apiKey := Some(stripped);
      }
    }

    /** The file loop of `_execute_knowledge_base_node`: each uploaded file
        with a path is handed to `process_docs`, and the outcome logged. */
    method UploadDocuments(cfg: NodeConfig, apiKey: Option<string>, model: string, svc: Services)
      requires apiKey == KnowledgeApiKey(cfg) && model == cfg.embeddingModel.GetOr(DefaultEmbeddingModel)
      modifies this
      ensures state == WithDocuments(old(state), cfg)
      ensures log == old(log) + DocumentLines(cfg, svc)
    {
      var files := cfg.uploadedFiles;
      if cfg.hasFiles && files != [] {
        log := log + [ProcessingLine(|files|)];
        ghost var start := log;
        var calls := state.documentCalls;
        for i := 0 to |files|
          invariant calls == old(state).documentCalls + DocumentCalls(files[..i], apiKey, model)
          invariant log == start + FileLines(files[..i], apiKey, model, svc)
          invariant state == old(state)
        {
          assert files[..i + 1][..i] == files[..i];
          var path := files[i].path;
          var name := files[i].name.GetOr("unknown");
          if Truthy(path) {
            var processed := svc.processDocs(path.value, apiKey, model);
            calls := calls + [DocumentCall(path.value, apiKey, model)];
            AppendAssoc(start, FileLines(files[..i], apiKey, model, svc), [FileLine(name, processed)]);
            log := log + [FileLine(name, processed)];
          }
        }
        assert files[..|files|] == files;
        state := state.(documentCalls := calls, documentsUploaded := true);
        AppendAssoc(old(log), [ProcessingLine(|files|)], FileLines(files, apiKey, model, svc));
        AppendAssoc(old(log), [ProcessingLine(|files|)] + FileLines(files, apiKey, model, svc), [DocumentsStoredLine]);
        log := log + [DocumentsStoredLine];
      }
    }

    /** `_execute_llm_engine_node`. */
    method ExecuteLlmEngineNode(n: Node, svc: Services) returns (ok: bool)
      modifies this
      ensures var r := LlmStep(old(state), n.config, svc);
        state == r.state && ok == r.ok && log == old(log) + r.lines
    {
      var cfg := n.config;
      var model := cfg.model.GetOr(DefaultLlmModel);
      log := log + [LlmStartLine];
      var apiKey := LlmKey(cfg);
      AppendAssoc(old(log), [LlmStartLine], LlmKeyLines(state, cfg));
      ghost var lines := [LlmStartLine] + LlmKeyLines(state, cfg);
      var contextLine := if Truthy(state.context) then ContextSizeLine(|state.context.value|) else DirectQueryLine;
      log := log + [ModelLine(model, cfg.temperature.GetOr("0.7")), contextLine];
      AppendAssoc(old(log), lines, LlmInputLines(state, cfg));
      lines := lines + LlmInputLines(state, cfg);
      ok := RecordAnswer(svc.generateResponse(state.userQuery, state.context, cfg.prompt, apiKey, model));
      AppendAssoc(old(log), lines, log[|old(log)| + |lines|..]);
    }

    /** The end of `_execute_llm_engine_node`: the generator's answer
        stored and logged. */
    method RecordAnswer(call: Call<string>) returns (ok: bool)
      modifies this
      ensures var r := AnswerStep(old(state), call);
        state == r.state && ok == r.ok && log == old(log) + r.lines
    {
      match call
      case Returned(response) =>
        if Usable(response) {
          state := state.(llmResponse := Some(response));
          log := log + [LlmResponseLine(response)];
          return true;
        }
        log := log + [LlmErrorLine(response)];
        state := state.(llmResponse := Some(if response == "" then LlmFallback else response));
        return false;
      case Raised(message) =>
        log := log + [LlmEngineErrorLine(message)];
        state := state.(llmResponse := Some(LlmErrorPrefix + message));
        return false;
    }

    /** The key handling of `_execute_llm_engine_node`: the node's own
        stripped key, else the knowledge base's, with the lines saying
        which. */
    method LlmKey(cfg: NodeConfig) returns (apiKey: Option<string>)
      modifies this
      ensures apiKey == LlmApiKey(state, cfg)
      ensures state == old(state)
      ensures log == old(log) + LlmKeyLines(state, cfg)
    {
      var stripped := Text.Trim(cfg.apiKey.GetOr(""));
      log := log + DebugLines(LlmDebugTag, cfg);
      if stripped == "" {
        apiKey := state.kbApiKey;
        if !Truthy(apiKey) {
          log := log + [LlmNoKeyLine];
          apiKey := None;
        } else {
          log := log + [LlmKnowledgeKeyLine];
        }
      } else {
        apiKey := Some(stripped);
        log := log + [LlmOwnKeyLine];
      }
    }

    /** `_execute_output_node`. */
    method ExecuteOutputNode(n: Node) returns (ok: bool)
      modifies this
      ensures var r := OutputStep(old(state), n.config);
        state == r.state && ok == r.ok && log == old(log) + r.lines
    {
      log := log + [OutputStartLine];
      var text: string;
      if Truthy(state.llmResponse) {
        text := state.llmResponse.value;
      } else {
        text := EchoPrefix + state.userQuery;
      }
      if n.config.includeMetadata {
        state := state.(finalOutput := Some(WithMetadata(text, state.context.Some?, state.knowledgeProcessed, state.documentsUploaded)));
      } else {
        state := state.(finalOutput := Some(Plain(text)));
      }
      log := log + [OutputDoneLine];
      return true;
    }

    /** `_execute_node`: dispatch on the node type. */
    method ExecuteNode(n: Node, svc: Services) returns (ok: bool)
      modifies this
      ensures var r := NodeStep(n, old(state), svc);
        state == r.state && ok == r.ok && log == old(log) + r.lines
    {
      if n.kind == Some(UserQueryType) {
        ok := ExecuteUserQueryNode(n);
      } else if n.kind == Some(KnowledgeBaseType) {
        ok := ExecuteKnowledgeBaseNode(n, svc);
      } else if n.kind == Some(LlmEngineType) {
        ok := ExecuteLlmEngineNode(n, svc);
      } else if n.kind == Some(OutputType) {
        ok := ExecuteOutputNode(n);
      } else {
        log := log + UnknownTypeLines(n.kind);
        ok := false;
      }
    }

    /** One pass of `execute`'s loop: the node with id `id`, when the
        table holds one, is logged, run and, when it succeeds, recorded. */
    method ExecuteEntry(id: string, svc: Services)
      modifies this
      ensures Run(state, log) == RunStep(nodes, id, Run(old(state), old(log)), svc)
    {
      var found := Lookup(nodes, id);
      if found.None? {
        return;
      }
      var n := found.value;
      var shown := NodeLabel(nodes, id);
      log := log + [ExecutingLine(shown, n.kind)];
      var ok := ExecuteNode(n, svc);
      if ok {
        state := state.(nodesExecuted := state.nodesExecuted + [id]);
        log := log + [CompletedLine(shown)];
      } else {
        log := log + [FailedLine(shown)];
      }
    }

    /** `execute`: logs the header, then runs every node of the order. */
    method Execute(input: string, svc: Services) returns (res: ExecutionResult)
      requires Valid()
      modifies this
      ensures Run(state, log) == ExecuteRun(workflowName, nodes, edges, input, old(log), svc)
      ensures res == Report(workflowId, workflowName, input, Pattern(nodes, edges), Run(state, log))
    {
      var pattern, order := StartRun(input);
      RunOrder(order, svc);
      res := Report(workflowId, workflowName, input, pattern, Run(state, log));
    }

    /** The part of `execute` before the loop: the state is reset, and the
        start, the input, the pattern and the order are logged. */
    method StartRun(input: string) returns (pattern: Option<PipelinePattern>, order: seq<string>)
      modifies this
      ensures pattern == Pattern(nodes, edges) && order == ExecutionOrder(nodes, graph)
      ensures state == InitialState(input)
      ensures log == old(log) + HeaderLines(workflowName, input, pattern, nodes, order)
    {
      log := log + [StartLine(workflowName), InputLine(input)];
      state := InitialState(input);
      pattern := AnalyzeWorkflowPattern();
      log := log + [PatternLine(pattern)];
      order := GetExecutionOrder();
      log := log + [OrderLine(nodes, order)];
    }

    /** The loop of `execute` over the execution order. */
    method RunOrder(order: seq<string>, svc: Services)
      modifies this
      ensures Run(state, log) == RunNodes(nodes, order, Run(old(state), old(log)), svc)
    {
      ghost var start := Run(state, log);
      for i := 0 to |order|
        invariant Run(state, log) == RunNodes(nodes, order[..i], start, svc)
      {
        assert order[..i + 1][..i] == order[..i];
        ExecuteEntry(order[i], svc);
      }
      assert order[..|order|] == order;
    }
  }

  /** `execute_workflow`: looks the workflow up and runs it on a fresh
      executor. */
  method ExecuteWorkflow(db: map<int, WorkflowRecord>, workflowId: int, input: string, svc: Services) returns (res: ExecutionResult)
    ensures res == WorkflowOutcome(db, workflowId, input, svc)
  {
    if workflowId !in db {
      return Failed(workflowId, NotFoundMessage(workflowId));
    }
    var w := db[workflowId];
    if w.nodes == [] {
      return Failed(workflowId, NoNodesMessage);
    }
    var executor := new WorkflowExecutor(w);
    res := executor.Execute(input, svc);
  }
}
