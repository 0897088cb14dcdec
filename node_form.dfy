/** The form inside a canvas node (`components/WorkflowNode.tsx`): the
    field values it keeps, the shown/hidden state of its secret inputs,
    what each field displays, and which column each handle goes in. */
module NodeForm {
  import opened Wrappers
  import opened NodeTypes

  /** `values[field.id] || field.defaultValue || ''`: the stored value when
      it is truthy, else the default when that is truthy, else the empty
      string. */
  function DisplayValue(values: map<string, Value>, f: NodeField): (v: Value)
    ensures f.id in values && Truthy(values[f.id]) ==> v == values[f.id]
    ensures !(f.id in values && Truthy(values[f.id])) && f.defaultValue.Some? && Truthy(f.defaultValue.value) ==>
      v == f.defaultValue.value
    ensures Truthy(v) <==> (f.id in values && Truthy(values[f.id])) || (f.defaultValue.Some? && Truthy(f.defaultValue.value))
    ensures !Truthy(v) ==> v == Text("")
  {
    if f.id in values && Truthy(values[f.id]) then values[f.id]
    else if f.defaultValue.Some? && Truthy(f.defaultValue.value) then f.defaultValue.value
    else Text("")
  }

  /** A stored `false`, `0` or `''` does not show: the field displays its
      default instead, exactly as if nothing were stored. */
  lemma FalsyValueShowsDefault(values: map<string, Value>, f: NodeField)
    requires f.id in values && !Truthy(values[f.id])
    ensures DisplayValue(values, f) == DisplayValue(values - {f.id}, f)
  {
  }

  /** An input field is shown as plain text only after its eye button was
      pressed an odd number of times; an unset flag means hidden. */
  predicate Revealed(showApi: map<string, bool>, id: string) {
    id in showApi && showApi[id]
  }

  /** The `type` of an input field. */
  function InputType(showApi: map<string, bool>, id: string): (t: string)
    ensures t == "text" <==> Revealed(showApi, id)
    ensures t == "password" <==> !Revealed(showApi, id)
  {
    if Revealed(showApi, id) then "text" else "password"
  }

  /** The handles of one kind, in configuration order. */
  function HandlesOf(hs: seq<NodeHandle>, kind: HandleKind): (r: seq<NodeHandle>)
    ensures |r| <= |hs|
    ensures forall h | h in r :: h in hs && h.kind == kind
    ensures forall h | h in hs && h.kind == kind :: h in r
  {
    if hs == [] then []
    else (if hs[0].kind == kind then [hs[0]] else []) + HandlesOf(hs[1..], kind)
  }

  /** Filtering distributes over concatenation, so each column keeps the
      configuration's order. */
  lemma {:induction false} HandlesOfConcat(a: seq<NodeHandle>, b: seq<NodeHandle>, kind: HandleKind)
    ensures HandlesOf(a + b, kind) == HandlesOf(a, kind) + HandlesOf(b, kind)
    decreases |a|
  {
    if a == [] {
      assert a + b == b;
    } else {
      assert (a + b)[1..] == a[1..] + b;
      HandlesOfConcat(a[1..], b, kind);
    }
  }

  /** Every handle goes in exactly one column: the left one holds the
      targets, the right one the sources, and together they hold as many
      handles as the configuration. */
  lemma {:induction false} HandlesPartition(hs: seq<NodeHandle>)
    ensures |HandlesOf(hs, Target)| + |HandlesOf(hs, Source)| == |hs|
    ensures multiset(HandlesOf(hs, Target)) + multiset(HandlesOf(hs, Source)) == multiset(hs)
    decreases |hs|
  {
    if hs != [] {
      HandlesPartition(hs[1..]);
      assert hs == [hs[0]] + hs[1..];
    }
  }

  /** One rendered node: its configuration, the values of its fields, the
      eye-button flags of its input fields, and the value maps it has
      handed to `onDataChange`. */
  class NodeFormState {
    const config: WorkflowNodeConfig
    /** Whether the parent passed an `onDataChange` callback. */
    const notifies: bool
    var values: map<string, Value>
    var showApi: map<string, bool>
    var notified: seq<map<string, Value>>

    /** The first render, with the node's data as initial values. */
    constructor (config: WorkflowNodeConfig, data: map<string, Value>, notifies: bool)
      ensures this.config == config && this.notifies == notifies
      ensures values == data && showApi == map[] && notified == []
    {
      this.config := config;
      this.notifies := notifies;
      values := data;
      showApi := map[];
      notified := [];
    }

    /** `handleFieldChange`: one key rebound, and the new map handed on. */
    method HandleFieldChange(fieldId: string, value: Value)
      modifies this
      ensures values == old(values)[fieldId := value]
      ensures showApi == old(showApi)
      ensures notified == old(notified) + (if notifies then [values] else [])
    {
      var newValues := values[fieldId := value];
      values := newValues;
      if notifies {
        notified := notified + [newValues];
      }
    }

    /** The eye button of an input field. */
    method ToggleVisibility(fieldId: string)
      modifies this
      ensures showApi == old(showApi)[fieldId := !Revealed(old(showApi), fieldId)]
      ensures values == old(values) && notified == old(notified)
    {
      showApi := showApi[fieldId := !Revealed(showApi, fieldId)];
    }

    /** Picking an option of a select field: the select has no change
        handler, so the form's state stays as it was. */
    method SelectOption(fieldId: string, option: string)
      ensures values == old(values) && showApi == old(showApi) && notified == old(notified)
    {
    }

    /** The file input: the first chosen file's name is recorded and
        handed on like any other change, and an empty choice changes
        nothing. */
    method ChooseFiles(fieldId: string, fileNames: seq<string>)
      modifies this
      ensures fileNames != [] ==> values == old(values)[fieldId := Text(fileNames[0])]
      ensures fileNames != [] ==> notified == old(notified) + (if notifies then [values] else [])
      ensures fileNames == [] ==> values == old(values) && notified == old(notified)
      ensures showApi == old(showApi)
    {
      if fileNames != [] {
        HandleFieldChange(fieldId, Text(fileNames[0]));
      }
    }
  }

  /** Two presses of the eye button bring a field back to its first state
      as far as the rendered input type goes. */
  method ToggleTwice(form: NodeFormState, fieldId: string)
    modifies form
    ensures InputType(form.showApi, fieldId) == InputType(old(form.showApi), fieldId)
    ensures form.values == old(form.values)
  {
    form.ToggleVisibility(fieldId);
    form.ToggleVisibility(fieldId);
  }
}
