/** The server's stored workflow record and the parts of its JSON node and
    edge dictionaries that the executor reads. */
module WorkflowModel {
  import opened Wrappers

  /** One entry of a knowledge-base node's `uploadedFiles` list. */
  datatype UploadedFile = UploadedFile(path: Option<string>, name: Option<string>)

  /** The `data.config` dictionary of a node. A `None` field is a key that is
      not in the dictionary; the executor supplies the default. The two
      boolean flags are read with a `False` default, so an absent key and
      `false` behave the same and are one value here. `keys` lists the
      dictionary's keys in order, as the handlers' debug lines print them;
      `temperature` is the text Python prints for `float(temperature)`. */
  datatype NodeConfig = NodeConfig(
    keys: seq<string>,
    preprocess: bool,
    apiKey: Option<string>,
    embeddingModel: Option<string>,
    hasFiles: bool,
    uploadedFiles: seq<UploadedFile>,
    model: Option<string>,
    temperature: Option<string>,
    prompt: Option<string>,
    includeMetadata: bool)

  /** A node dictionary: `id`, `type` (absent for `None`), `data.label` (`labelText`) and
      `data.config`. */
  datatype Node = Node(id: string, kind: Option<string>, labelText: Option<string>, config: NodeConfig)

  /** An edge dictionary: its `source` and `target` node ids, each possibly
      absent. */
  datatype Edge = Edge(source: Option<string>, target: Option<string>)

  /** A row of the `workflows` table; timestamps are ticks of an abstract
      clock. */
  datatype WorkflowRecord = WorkflowRecord(
    id: int,
    name: string,
    description: Option<string>,
    nodes: seq<Node>,
    edges: seq<Edge>,
    isActive: bool,
    createdAt: nat,
    updatedAt: nat)

  /** The four node types the editor offers. */
  const UserQueryType := "userQuery"
  const KnowledgeBaseType := "knowledgeBase"
  const LlmEngineType := "llmEngine"
  const OutputType := "output"
}
