/** The editor canvas (`ReactFlowDemo.tsx`): the module-wide counter that
    names dropped nodes, dropping a node from the palette, loading the
    stored graph, and the props it hands to the auto-save hook. */
module Canvas {
  import opened Wrappers
  import opened Text
  import opened NodeTypes

  /** A point on the canvas. */
  datatype Position = Position(x: real, y: real)

  /** A canvas node: id, type, position and its data record. */
  datatype FlowNode = FlowNode(id: string, kind: string, position: Position, data: map<string, Value>)

  /** A canvas edge. */
  datatype FlowEdge = FlowEdge(id: string, source: string, target: string)

  const IdPrefix := "dndnode_"

  /** The id `getId` hands out when the counter reads `n`. */
  function DndId(n: nat): (s: string)
    ensures StartsWith(s, IdPrefix)
  {
    IdPrefix + NatToString(n)
  }

  /** Different counter readings give different ids. */
  lemma DndIdInjective(a: nat, b: nat)
    requires a != b
    ensures DndId(a) != DndId(b)
  {
    if DndId(a) == DndId(b) {
      assert NatToString(a) == DndId(a)[|IdPrefix|..] == DndId(b)[|IdPrefix|..] == NatToString(b);
      NatToStringInjective(a, b);
    }
  }

  /** The module-level `id` counter behind `getId`. `issued` records the
      ids handed out so far. */
  class IdCounter {
    var next: nat
    ghost var issued: seq<string>

    ghost predicate Valid()
      reads this
    {
      |issued| == next && forall i | 0 <= i < next :: issued[i] == DndId(i)
    }

    /** The counter at module load. */
    constructor ()
      ensures Valid() && next == 0 && issued == []
    {
      next := 0;
      issued := [];
    }

    /** `getId`: the id for the current reading, then one more. The new id
        differs from every id handed out before. */
    method GetId() returns (id: string)
      requires Valid()
      modifies this
      ensures Valid()
      ensures id == DndId(old(next)) && next == old(next) + 1
      ensures issued == old(issued) + [id]
      ensures id !in old(issued)
    {
      id := DndId(next);
      forall i | 0 <= i < next
        ensures issued[i] != id
      {
        DndIdInjective(i, next);
      }
      issued := issued + [id];
      next := next + 1;
    }
  }

  /** All ids a valid counter has handed out are different. */
  lemma IssuedDistinct(c: IdCounter)
    requires c.Valid()
    ensures forall i, j | 0 <= i < j < |c.issued| :: c.issued[i] != c.issued[j]
  {
    forall i, j | 0 <= i < j < |c.issued|
      ensures c.issued[i] != c.issued[j]
    {
      DndIdInjective(i, j);
    }
  }

  /** The props the canvas passes to the auto-save hook for its optional
      `workflowId` (`None` also stands for `NaN`): the id or 0, and
      enabled exactly when the id is present and not 0. */
  function PersistenceProps(workflowId: Option<int>): (p: (int, bool))
    ensures p.1 <==> workflowId.Some? && workflowId.value != 0
    ensures p.0 == workflowId.GetOr(0)
  {
    if workflowId.Some? && workflowId.value != 0 then (workflowId.value, true) else (0, false)
  }

  /** One canvas instance: its nodes and edges, the node type being dragged
      from the palette (`None` for `null`), and the shared id counter. */
  class FlowCanvas {
    var nodes: seq<FlowNode>
    var edges: seq<FlowEdge>
    var dragType: Option<string>
    const ids: IdCounter

    ghost predicate Valid()
      reads this, ids
    {
      ids.Valid()
    }

    /** The first render: the state starts from the initial collections. */
    constructor (ids: IdCounter, initialNodes: seq<FlowNode>, initialEdges: seq<FlowEdge>, dragType: Option<string>)
      requires ids.Valid()
      ensures Valid()
      ensures this.ids == ids && nodes == initialNodes && edges == initialEdges && this.dragType == dragType
    {
      this.ids := ids;
      nodes := initialNodes;
      edges := initialEdges;
      this.dragType := dragType;
    }

    /** The initial-load effect: the stored graph replaces the canvas only
        when it has a node or an edge. */
    method LoadInitial(initialNodes: seq<FlowNode>, initialEdges: seq<FlowEdge>)
      modifies this
      ensures |initialNodes| > 0 || |initialEdges| > 0 ==> nodes == initialNodes && edges == initialEdges
      ensures |initialNodes| == 0 && |initialEdges| == 0 ==> nodes == old(nodes) && edges == old(edges)
      ensures dragType == old(dragType)
    {
      if |initialNodes| > 0 || |initialEdges| > 0 {
        nodes := initialNodes;
        edges := initialEdges;
      }
    }

    /** `onDrop`: without a dragged type (absent or empty) nothing happens;
        otherwise one node with an id the counter has not issued before,
        that type, the drop position and empty data is appended, and the
        dragged type is cleared. */
    method OnDrop(position: Position)
      requires Valid()
      modifies this, ids
      ensures Valid()
      ensures edges == old(edges)
      ensures old(dragType).None? || old(dragType).value == "" ==>
        nodes == old(nodes) && dragType == old(dragType) && ids.next == old(ids.next)
      ensures old(dragType).Some? && old(dragType).value != "" ==>
        && nodes == old(nodes) + [FlowNode(DndId(old(ids.next)), old(dragType).value, position, map[])]
        && dragType.None? && ids.next == old(ids.next) + 1
        && DndId(old(ids.next)) !in old(ids.issued)
    {
      if dragType.None? || dragType.value == "" {
        return;
      }
      var id := ids.GetId();
      var node := FlowNode(id, dragType.value, position, map[]);
      nodes := nodes + [node];
      dragType := None;
    }
  }
}
