/** The client's node-configuration types (`types/workflow-nodes.ts`):
    handles, form fields and the configuration of one node type. Icons,
    colours, widths and styles are presentation only and are left out. */
module NodeTypes {
  import opened Wrappers

  /** Whether a handle starts or ends an edge. */
  datatype HandleKind = Source | Target

  /** The side of the node a handle sits on. */
  datatype Side = Left | Top | Right | Bottom

  datatype NodeHandle = NodeHandle(id: string, kind: HandleKind, position: Side, labelText: Option<string>)

  /** The input control a field is rendered with. */
  datatype FieldKind = TextArea | Input | Select | File | Toggle | Slider | Number

  /** A field value: a string, a JavaScript number or a boolean. */
  datatype Value = Text(text: string) | Num(number: real) | Flag(flag: bool)

  /** JavaScript truthiness of a value (`NaN` is not modelled). */
  predicate Truthy(v: Value) {
    match v
    case Text(s) => s != ""
    case Num(n) => n != 0.0
    case Flag(b) => b
  }

  datatype FieldOption = FieldOption(labelText: string, value: string)

  /** A form field; `None` is a property the literal leaves out. */
  datatype NodeField = NodeField(
    id: string,
    labelText: string,
    kind: FieldKind,
    placeholder: Option<string>,
    options: Option<seq<FieldOption>>,
    defaultValue: Option<Value>,
    required: Option<bool>,
    min: Option<real>,
    max: Option<real>,
    step: Option<real>)

  /** The configuration of one node type. */
  datatype WorkflowNodeConfig = WorkflowNodeConfig(
    id: string,
    title: string,
    description: string,
    handles: seq<NodeHandle>,
    fields: seq<NodeField>)

  /** The four node types of the palette. */
  datatype NodeType = UserQuery | KnowledgeBase | LlmEngine | Output
}
