/** The four node configurations of the palette (`config/nodeConfigs.ts`)
    and the rules they keep: unique handle and field ids, select defaults
    among the options, numeric defaults within their bounds, and which
    side of the graph each node type may sit on. */
module NodeConfigs {
  import opened Wrappers
  import opened NodeTypes

  /** A field with only its id, label and control set. */
  function Field(id: string, labelText: string, kind: FieldKind): NodeField {
    NodeField(id, labelText, kind, None, None, None, None, None, None, None)
  }

  function Handle(id: string, kind: HandleKind, labelText: string): NodeHandle {
    NodeHandle(id, kind, if kind == Source then Right else Left, Some(labelText))
  }

  const ApiKeyMask := "**********************"
  const PdfAssistantPrompt :=
    "You are a helpful PDF assistant. Use CONTEXT (content) and USER Query (query) to answer user questions."

  const UserQueryConfig := WorkflowNodeConfig(
    "user-query", "User Query", "Entry point for user queries",
    [Handle("query-output", Source, "Query")],
    [Field("query", "User Query", TextArea).(placeholder := Some("Write your query here..."), required := Some(true))])

  const KnowledgeBaseConfig := WorkflowNodeConfig(
    "knowledge-base", "Knowledge Base", "Let LLM search info to your file",
    [Handle("query-input", Target, "Query"), Handle("context-output", Source, "Context")],
    [Field("upload-file", "File for Knowledge Base", File).(placeholder := Some("Upload File")),
     Field("embedding-model", "Embedding Model", Select).(
       options := Some([FieldOption("text-embedding-3-large", "text-embedding-3-large"),
                        FieldOption("text-embedding-3-small", "text-embedding-3-small"),
                        FieldOption("ada-002", "ada-002")]),
       defaultValue := Some(Text("text-embedding-3-large"))),
     Field("api-key", "API Key", Input).(placeholder := Some(ApiKeyMask)),
     Field("query-text", "Query", TextArea).(placeholder := Some("Enter query..."))])

  const LlmEngineConfig := WorkflowNodeConfig(
    "llm-engine", "LLM (OpenAI)", "Run a query with OpenAI LLM",
    [Handle("query-input", Target, "Query"), Handle("context-input", Target, "Context"),
     Handle("response-output", Source, "Output")],
    [Field("model", "Model", Select).(
       options := Some([FieldOption("GPT-4o Mini", "gpt-4o-mini"), FieldOption("GPT-4", "gpt-4"),
                        FieldOption("GPT-3.5 Turbo", "gpt-3.5-turbo")]),
       defaultValue := Some(Text("gpt-4o-mini"))),
     Field("api-key", "API Key", Input).(placeholder := Some(ApiKeyMask)),
     Field("prompt", "Prompt", TextArea).(placeholder := Some(PdfAssistantPrompt), defaultValue := Some(Text(PdfAssistantPrompt))),
     Field("temperature", "Temperature", Number).(
       placeholder := Some("0.7"), defaultValue := Some(Num(0.7)), min := Some(0.0), max := Some(2.0), step := Some(0.1)),
     Field("web-search", "WebSearch Tool", Toggle).(defaultValue := Some(Flag(false))),
     Field("serp-api-key", "SERP API", Input).(placeholder := Some(ApiKeyMask))])

  const OutputConfig := WorkflowNodeConfig(
    "output", "Output", "Display the final results as text",
    [Handle("output-input", Target, "Output")],
    [Field("output-text", "Output Text", TextArea).(
       placeholder := Some("Output will be generated when you run the workflow"), defaultValue := Some(Text("")))])

  /** The configuration each palette type is rendered with. */
  function Config(t: NodeType): WorkflowNodeConfig {
    match t
    case UserQuery => UserQueryConfig
    case KnowledgeBase => KnowledgeBaseConfig
    case LlmEngine => LlmEngineConfig
    case Output => OutputConfig
  }

  predicate DistinctHandleIds(c: WorkflowNodeConfig) {
    forall i, j | 0 <= i < j < |c.handles| :: c.handles[i].id != c.handles[j].id
  }

  predicate DistinctFieldIds(c: WorkflowNodeConfig) {
    forall i, j | 0 <= i < j < |c.fields| :: c.fields[i].id != c.fields[j].id
  }

  /** A select field's default, when it has one, is the value of one of its
      options. */
  predicate DefaultListed(f: NodeField) {
    f.kind == Select && f.defaultValue.Some? ==>
      f.options.Some? && exists o | o in f.options.value :: f.defaultValue.value == Text(o.value)
  }

  /** A number field's numeric default lies within its bounds. */
  predicate DefaultInRange(f: NodeField) {
    f.kind == Number && f.defaultValue.Some? && f.defaultValue.value.Num? ==>
      && (f.min.Some? ==> f.min.value <= f.defaultValue.value.number)
      && (f.max.Some? ==> f.defaultValue.value.number <= f.max.value)
  }

  predicate WellFormed(c: WorkflowNodeConfig) {
    && DistinctHandleIds(c)
    && DistinctFieldIds(c)
    && (forall f | f in c.fields :: DefaultListed(f) && DefaultInRange(f))
  }

  /** Every palette configuration is well formed. */
  lemma ConfigsWellFormed(t: NodeType)
    ensures WellFormed(Config(t))
  {
    HandleIdsDistinct(t);
    FieldIdsDistinct(t);
    DefaultsListed(t);
    DefaultsInRange(t);
  }

  lemma HandleIdsDistinct(t: NodeType)
    ensures DistinctHandleIds(Config(t))
  {
  }

  lemma FieldIdsDistinct(t: NodeType)
    ensures DistinctFieldIds(Config(t))
  {
  }

  lemma DefaultsListed(t: NodeType)
    ensures forall f | f in Config(t).fields :: DefaultListed(f)
  {
    if t == KnowledgeBase {
      var f := KnowledgeBaseConfig.fields[1];
      assert f.options.value[0].value == f.defaultValue.value.text;
    } else if t == LlmEngine {
      var f := LlmEngineConfig.fields[0];
      assert f.options.value[0].value == f.defaultValue.value.text;
    }
  }

  lemma DefaultsInRange(t: NodeType)
    ensures forall f | f in Config(t).fields :: DefaultInRange(f)
  {
  }

  /** The entry node only starts edges and the output node only ends them. */
  lemma HandleDirections()
    ensures forall h | h in Config(UserQuery).handles :: h.kind == Source
    ensures forall h | h in Config(Output).handles :: h.kind == Target
    ensures forall t: NodeType | t != UserQuery :: exists h | h in Config(t).handles :: h.kind == Target
    ensures forall t: NodeType | t != Output :: exists h | h in Config(t).handles :: h.kind == Source
  {
    assert Config(KnowledgeBase).handles[0].kind == Target && Config(KnowledgeBase).handles[1].kind == Source;
    assert Config(LlmEngine).handles[0].kind == Target && Config(LlmEngine).handles[2].kind == Source;
    assert Config(Output).handles[0].kind == Target && Config(UserQuery).handles[0].kind == Source;
  }

  /** The temperature default 0.7 lies in its range [0, 2]. */
  lemma TemperatureInRange()
    ensures var f := LlmEngineConfig.fields[3];
      && f.id == "temperature" && f.kind == Number
      && f.min.value <= f.defaultValue.value.number <= f.max.value
      && f.defaultValue == Some(Num(0.7))
  {
  }

  /** The only required field of the palette is the user query's `query`. */
  lemma OnlyQueryRequired(t: NodeType, f: NodeField)
    requires f in Config(t).fields
    ensures f.required == Some(true) <==> t == UserQuery && f.id == "query"
  {
  }
}
