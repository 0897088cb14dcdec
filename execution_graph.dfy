/** The graph side of the server's workflow executor: the node table, the
    adjacency list built from the edges, the execution order (a depth-first
    walk from the first user-query node, or a fixed order by type), the
    pipeline pattern and the readable node label. Everything here is a
    specification function; the loops that compute them are the methods of
    `WorkflowExecution.WorkflowExecutor`. */
module ExecutionGraph {
  import opened Wrappers
  import opened WorkflowModel

  /** Python truthiness of an optional string: present and non-empty. */
  predicate Truthy(s: Option<string>) {
    s.Some? && s.value != ""
  }

  function Ids(t: seq<Node>): set<string> {
    set n | n in t :: n.id
  }

  lemma IdsCons(x: Node, rest: seq<Node>)
    ensures Ids([x] + rest) == {x.id} + Ids(rest)
  {
    var t := [x] + rest;
    forall id | id in Ids(t) ensures id in {x.id} + Ids(rest) {
      var n :| n in t && n.id == id;
      if n != x {
        assert n in rest;
      }
    }
    forall id | id in Ids(rest) ensures id in Ids(t) {
      var n :| n in rest && n.id == id;
      assert n in t;
    }
    assert x in t;
  }

  /** The ids of the table in table order. */
  function IdSeq(t: seq<Node>): (r: seq<string>)
    ensures |r| == |t|
    ensures forall i | 0 <= i < |t| :: r[i] == t[i].id
  {
    if t == [] then [] else [t[0].id] + IdSeq(t[1..])
  }

  predicate DistinctIds(t: seq<Node>) {
    forall i, j | 0 <= i < j < |t| :: t[i].id != t[j].id
  }

  predicate Distinct(s: seq<string>) {
    forall i, j | 0 <= i < j < |s| :: s[i] != s[j]
  }

  /** `self.nodes.get(id)`. */
  function Lookup(t: seq<Node>, id: string): (r: Option<Node>)
    ensures r.Some? <==> id in Ids(t)
    ensures r.Some? ==> r.value in t && r.value.id == id
  {
    if t == [] then None
    else if t[0].id == id then Some(t[0])
    else
      assert Ids(t) == {t[0].id} + Ids(t[1..]);
      Lookup(t[1..], id)
  }

  /** `d[n.id] = n` on an insertion-ordered dictionary: a key already there
      keeps its place and takes the new value, a new key goes last. */
  function Upsert(t: seq<Node>, n: Node): (r: seq<Node>)
    ensures Ids(r) == Ids(t) + {n.id}
    ensures |r| == if n.id in Ids(t) then |t| else |t| + 1
    ensures forall i | 0 <= i < |t| :: r[i].id == t[i].id
    ensures n.id !in Ids(t) ==> r == t + [n]
  {
    if t == [] then [n]
    else
      IdsCons(t[0], t[1..]);
      assert [t[0]] + t[1..] == t;
      if t[0].id == n.id then
        var r := [n] + t[1..];
        IdsCons(n, t[1..]);
        r
      else
        var rest := Upsert(t[1..], n);
        var r := [t[0]] + rest;
        IdsCons(t[0], rest);
        assert forall i | 1 <= i < |r| :: r[i] == rest[i - 1];
        r
  }

  /** After `d[n.id] = n` the key `n.id` holds `n` and every other key holds
      what it held before. */
  lemma {:induction false} UpsertLookup(t: seq<Node>, n: Node)
    ensures Lookup(Upsert(t, n), n.id) == Some(n)
    ensures forall id | id != n.id :: Lookup(Upsert(t, n), id) == Lookup(t, id)
  {
    if t != [] && t[0].id != n.id {
      UpsertLookup(t[1..], n);
      assert Upsert(t, n)[1..] == Upsert(t[1..], n);
    }
  }

  /** Keys stay distinct under `d[n.id] = n`. */
  lemma {:induction false} UpsertDistinct(t: seq<Node>, n: Node)
    requires DistinctIds(t)
    ensures DistinctIds(Upsert(t, n))
  {
    var r := Upsert(t, n);
    if n.id in Ids(t) {
      forall i, j | 0 <= i < j < |r|
        ensures r[i].id != r[j].id
      {
        assert r[i].id == t[i].id && r[j].id == t[j].id;
      }
    } else {
      forall i, j | 0 <= i < j < |r|
        ensures r[i].id != r[j].id
      {
        if j == |t| {
          assert t[i] in t;
        } else {
          assert r[i].id == t[i].id && r[j].id == t[j].id;
        }
      }
    }
  }

  /** The strings of `s` in order of their first occurrence, each once. */
  function FirstOccurrences(s: seq<string>): (r: seq<string>)
    ensures forall x :: x in r <==> x in s
    ensures Distinct(r)
  {
    if s == [] then []
    else
      var p := FirstOccurrences(s[..|s| - 1]);
      assert forall x :: x in s <==> x in s[..|s| - 1] || x == s[|s| - 1] by {
        assert s == s[..|s| - 1] + [s[|s| - 1]];
      }
      if s[|s| - 1] in p then p else p + [s[|s| - 1]]
  }

  /** `{node["id"]: node for node in nodes}`: the dictionary the executor
      keeps, as its items in insertion order. Its keys are the stored ids
      in order of first occurrence, and a list without repeated ids is
      its own dictionary. */
  function NodeTable(raw: seq<Node>): (t: seq<Node>)
    ensures DistinctIds(t)
    ensures Ids(t) == Ids(raw)
    ensures |t| <= |raw|
    ensures IdSeq(t) == FirstOccurrences(IdSeq(raw))
    ensures DistinctIds(raw) ==> t == raw
  {
    if raw == [] then []
    else
      var init := raw[..|raw| - 1];
      var n := raw[|raw| - 1];
      assert raw == init + [n];
      assert Ids(raw) == Ids(init) + {n.id};
      var t0 := NodeTable(init);
      UpsertDistinct(t0, n);
      NodeTableStepOrder(init, n, t0);
      NodeTableStepDistinct(init, n, t0);
      Upsert(t0, n)
  }

  /** The ids of a table with one more node listed last. */
  lemma IdSeqSnoc(t: seq<Node>, n: Node)
    ensures IdSeq(t + [n]) == IdSeq(t) + [n.id]
  {
  }

  lemma IdSeqIds(t: seq<Node>, id: string)
    ensures id in IdSeq(t) <==> id in Ids(t)
  {
    if id in Ids(t) {
      var k :| 0 <= k < |t| && t[k].id == id;
      assert IdSeq(t)[k] == id;
    }
  }

  /** The step of `NodeTable` on a list without repeated ids appends. */
  lemma NodeTableStepDistinct(init: seq<Node>, n: Node, t0: seq<Node>)
    requires DistinctIds(init) ==> t0 == init
    ensures DistinctIds(init + [n]) ==> Upsert(t0, n) == init + [n]
  {
    var raw := init + [n];
    if DistinctIds(raw) {
      assert DistinctIds(init) by {
        forall i, j | 0 <= i < j < |init| ensures init[i].id != init[j].id {
          assert raw[i] == init[i] && raw[j] == init[j];
        }
      }
      IdSeqIds(init, n.id);
      forall k | 0 <= k < |init| ensures IdSeq(init)[k] != n.id {
        assert raw[k] == init[k] && raw[|init|] == n;
      }
    }
  }

  /** The step of `NodeTable`: storing `n` extends the key order exactly
      when its id is new. */
  lemma NodeTableStepOrder(init: seq<Node>, n: Node, t0: seq<Node>)
    requires Ids(t0) == Ids(init) && IdSeq(t0) == FirstOccurrences(IdSeq(init))
    ensures IdSeq(Upsert(t0, n)) == FirstOccurrences(IdSeq(init + [n]))
  {
    IdSeqSnoc(init, n);
    var s := IdSeq(init + [n]);
    assert s[..|s| - 1] == IdSeq(init);
    IdSeqIds(init, n.id);
    var r := Upsert(t0, n);
    if n.id in Ids(t0) {
      assert IdSeq(r) == IdSeq(t0);
    } else {
      IdSeqSnoc(t0, n);
    }
  }

  /** The last node of the list with the given id. */
  function LastWithId(raw: seq<Node>, id: string): Option<Node> {
    if raw == [] then None
    else if raw[|raw| - 1].id == id then Some(raw[|raw| - 1])
    else LastWithId(raw[..|raw| - 1], id)
  }

  /** When a node id occurs twice in the stored list, the dictionary holds
      the later node. */
  lemma {:induction false} NodeTableKeepsLastNode(raw: seq<Node>, id: string)
    ensures Lookup(NodeTable(raw), id) == LastWithId(raw, id)
  {
    if raw != [] {
      NodeTableKeepsLastNode(raw[..|raw| - 1], id);
      UpsertLookup(NodeTable(raw[..|raw| - 1]), raw[|raw| - 1]);
    }
  }

  // ---------------------------------------------------------------------
  // Adjacency list (`_build_execution_graph`)

  /** An edge that `_build_execution_graph` records under `id`: both ends
      are non-empty and the source is `id`. */
  predicate Links(e: Edge, id: string) {
    Truthy(e.source) && Truthy(e.target) && e.source.value == id
  }

  /** The targets of the edges leaving `id`, in edge order. */
  function TargetsFrom(es: seq<Edge>, id: string): seq<string> {
    if es == [] then []
    else
      var e := es[|es| - 1];
      TargetsFrom(es[..|es| - 1], id) + (if Links(e, id) then [e.target.value] else [])
  }

  /** A target is listed under `id` exactly when some edge from `id` leads
      to it; the target need not be a node. */
  lemma {:induction false} TargetsFromMembership(es: seq<Edge>, id: string, x: string)
    ensures x in TargetsFrom(es, id) <==> exists k | 0 <= k < |es| :: Links(es[k], id) && es[k].target.value == x
  {
    if es != [] {
      var init := es[..|es| - 1];
      TargetsFromMembership(init, id, x);
      if x in TargetsFrom(init, id) {
        var k :| 0 <= k < |init| && Links(init[k], id) && init[k].target.value == x;
        assert es[k] == init[k];
      }
      if exists k | 0 <= k < |es| :: Links(es[k], id) && es[k].target.value == x {
        var k :| 0 <= k < |es| && Links(es[k], id) && es[k].target.value == x;
        if k < |init| {
          assert init[k] == es[k];
        }
      }
    }
  }

  // ---------------------------------------------------------------------
  // Depth-first order (`_get_execution_order`)

  /** `self.graph.get(v, [])`. */
  function Succ(g: map<string, seq<string>>, v: string): seq<string> {
    if v in g then g[v] else []
  }

  lemma {:induction false} CardMono(a: set<string>, b: set<string>)
    requires a <= b
    ensures |a| <= |b|
    decreases |a|
  {
    if a != {} {
      var x :| x in a;
      CardMono(a - {x}, b - {x});
    }
  }

  /** The nested `dfs(v)`: the visited set afterwards and the ids it appended
      to the order, in visiting order. `ids` is the set of node ids. */
  function Dfs(g: map<string, seq<string>>, ids: set<string>, v: string, visited: set<string>): (r: (set<string>, seq<string>))
    requires visited <= ids
    ensures visited <= r.0 <= ids
    decreases |ids - visited|, 0, 0
  {
    if v in visited || v !in ids then (visited, [])
    else
      assert ids - (visited + {v}) == (ids - visited) - {v};
      var rest := DfsList(g, ids, Succ(g, v), visited + {v});
      (rest.0, [v] + rest.1)
  }

  /** The loop `for neighbor in ...: dfs(neighbor)` over the list `ns`. */
  function DfsList(g: map<string, seq<string>>, ids: set<string>, ns: seq<string>, visited: set<string>): (r: (set<string>, seq<string>))
    requires visited <= ids
    ensures visited <= r.0 <= ids
    decreases |ids - visited|, 1, |ns|
  {
    if ns == [] then (visited, [])
    else
      var first := Dfs(g, ids, ns[0], visited);
      CardMono(ids - first.0, ids - visited);
      var rest := DfsList(g, ids, ns[1..], first.0);
      (rest.0, first.1 + rest.1)
  }

  /** The ids of the nodes of type `kind`, in table order. */
  function IdsOfType(t: seq<Node>, kind: string): (r: seq<string>)
    ensures forall x | x in r :: x in Ids(t)
  {
    if t == [] then []
    else
      var last := t[|t| - 1];
      assert Ids(t) == Ids(t[..|t| - 1]) + {last.id} by {
        assert t == t[..|t| - 1] + [last];
      }
      IdsOfType(t[..|t| - 1], kind) + (if last.kind == Some(kind) then [last.id] else [])
  }

  predicate HasType(t: seq<Node>, kind: string) {
    exists n | n in t :: n.kind == Some(kind)
  }

  /** The id of the first node of type `kind` (the loop that stops at the
      first user-query node). */
  function FirstOfType(t: seq<Node>, kind: string): (r: Option<string>)
    ensures r.None? <==> !HasType(t, kind)
    ensures r.Some? ==> exists i | 0 <= i < |t| ::
      t[i].id == r.value && t[i].kind == Some(kind) && forall j | 0 <= j < i :: t[j].kind != Some(kind)
  {
    if t == [] then None
    else if t[0].kind == Some(kind) then Some(t[0].id)
    else FirstOfType(t[1..], kind)
  }

  /** A node of type `kind` with none before it is the first of its type. */
  lemma FirstOfTypeAt(t: seq<Node>, kind: string, i: nat)
    requires i < |t| && t[i].kind == Some(kind)
    requires forall j | 0 <= j < i :: t[j].kind != Some(kind)
    ensures FirstOfType(t, kind) == Some(t[i].id)
  {
    assert t[i] in t;
    var r := FirstOfType(t, kind);
    var k :| 0 <= k < |t| && t[k].id == r.value && t[k].kind == Some(kind)
      && forall j | 0 <= j < k :: t[j].kind != Some(kind);
    assert k == i;
  }

  /** The fallback used when no user-query node gives a start: the nodes by
      type, user query, knowledge base, LLM engine, output, each group in
      table order; nodes of any other type are left out. */
  function FallbackOrder(t: seq<Node>): seq<string> {
    IdsOfType(t, UserQueryType) + IdsOfType(t, KnowledgeBaseType)
      + IdsOfType(t, LlmEngineType) + IdsOfType(t, OutputType)
  }

  /** The groups of `IdsOfType` for each type of `kinds`, in that order. */
  function TypeGroups(t: seq<Node>, kinds: seq<string>): seq<string> {
    if kinds == [] then []
    else TypeGroups(t, kinds[..|kinds| - 1]) + IdsOfType(t, kinds[|kinds| - 1])
  }

  /** The node ids not in `visited`, in table order. */
  function Unvisited(t: seq<Node>, visited: set<string>): seq<string> {
    if t == [] then []
    else
      var last := t[|t| - 1];
      Unvisited(t[..|t| - 1], visited) + (if last.id in visited then [] else [last.id])
  }

  /** `_get_execution_order`. The start is the first user-query node; an
      empty id is falsy in Python and sends the executor to the fallback. */
  function ExecutionOrder(t: seq<Node>, g: map<string, seq<string>>): seq<string> {
    var start := FirstOfType(t, UserQueryType);
    if !Truthy(start) then FallbackOrder(t)
    else
      var walk := Dfs(g, Ids(t), start.value, {});
      walk.1 + Unvisited(t, walk.0)
  }

  // ---------------------------------------------------------------------
  // Pattern (`_analyze_workflow_pattern`)

  datatype PipelinePattern = FullRag | Hybrid | DirectLlm | SimpleLlm | Custom

  /** The strings the executor reports. */
  function PatternName(p: PipelinePattern): string {
    match p
    case FullRag => "Full RAG Pipeline (UserQuery → KnowledgeBase → LLM → Output)"
    case Hybrid => "Hybrid Pipeline (UserQuery → KnowledgeBase + LLM → Output)"
    case DirectLlm => "Direct LLM Pipeline (UserQuery → LLM → Output)"
    case SimpleLlm => "Simple LLM Pipeline (UserQuery → LLM → Output)"
    case Custom => "Custom Pipeline"
  }

  /** The id of the last node of type `kind` (the loop that keeps
      overwriting its variable). */
  function LastOfType(t: seq<Node>, kind: string): (r: Option<string>)
    ensures r.None? <==> !HasType(t, kind)
    ensures r.Some? ==> exists i | 0 <= i < |t| ::
      t[i].id == r.value && t[i].kind == Some(kind) && forall j | i < j < |t| :: t[j].kind != Some(kind)
  {
    if t == [] then None
    else if t[|t| - 1].kind == Some(kind) then Some(t[|t| - 1].id)
    else LastOfType(t[..|t| - 1], kind)
  }

  /** Some edge goes from the (last) user-query node to the (last) LLM node;
      both ids must be non-empty for the edges to be looked at. */
  predicate DirectToLlm(t: seq<Node>, es: seq<Edge>) {
    var uq := LastOfType(t, UserQueryType);
    var llm := LastOfType(t, LlmEngineType);
    Truthy(uq) && Truthy(llm)
      && exists e | e in es :: e.source == uq && e.target == llm
  }

  /** Some edge goes from the user-query node to the knowledge-base node
      (the `elif` branch, so not to the LLM node). */
  predicate ThroughKnowledge(t: seq<Node>, es: seq<Edge>) {
    var uq := LastOfType(t, UserQueryType);
    var llm := LastOfType(t, LlmEngineType);
    var kb := LastOfType(t, KnowledgeBaseType);
    Truthy(uq) && Truthy(llm)
      && exists e | e in es :: e.source == uq && e.target != llm && e.target == kb
  }

  /** The decision at the end of `_analyze_workflow_pattern`, from the four
      presence flags and the two edge flags. `None` is the Python function
      falling off its end: all four types present and neither edge flag
      set. */
  function Classify(hasUq: bool, hasKb: bool, hasLlm: bool, hasOut: bool, direct: bool, through: bool): Option<PipelinePattern> {
    if hasUq && hasKb && hasLlm && hasOut then
      if through && !direct then Some(FullRag)
      else if direct && through then Some(Hybrid)
      else if direct && !through then Some(DirectLlm)
      else None
    else if hasUq && hasLlm && hasOut && !hasKb then Some(SimpleLlm)
    else Some(Custom)
  }

  /** The pattern of a node table and its edges. */
  function Pattern(t: seq<Node>, es: seq<Edge>): Option<PipelinePattern> {
    Classify(HasType(t, UserQueryType), HasType(t, KnowledgeBaseType), HasType(t, LlmEngineType),
      HasType(t, OutputType), DirectToLlm(t, es), ThroughKnowledge(t, es))
  }

  // ---------------------------------------------------------------------
  // Labels (`_get_node_label`)

  const TypeLabels: map<string, string> := map[
    UserQueryType := "User Query",
    KnowledgeBaseType := "Knowledge Base",
    LlmEngineType := "LLM Engine",
    OutputType := "Output"]

  /** A readable name for a node id: the id itself when no node has it, the
      node's own non-empty label, the fixed name of one of the four types,
      the raw type otherwise, or "unknown" when the node has no type. */
  function NodeLabel(t: seq<Node>, id: string): (r: string)
    ensures id !in Ids(t) ==> r == id
    ensures forall n | Lookup(t, id) == Some(n) && Truthy(n.labelText) :: r == n.labelText.value
    ensures forall n | Lookup(t, id) == Some(n) && !Truthy(n.labelText) ::
      && (n.kind == Some(UserQueryType) ==> r == "User Query")
      && (n.kind == Some(KnowledgeBaseType) ==> r == "Knowledge Base")
      && (n.kind == Some(LlmEngineType) ==> r == "LLM Engine")
      && (n.kind == Some(OutputType) ==> r == "Output")
      && (n.kind.Some? && n.kind.value !in TypeLabels ==> r == n.kind.value)
      && (n.kind.None? ==> r == "unknown")
  {
    match Lookup(t, id)
    case None => id
    case Some(n) =>
      if Truthy(n.labelText) then n.labelText.value
      else
        var kind := n.kind.GetOr("unknown");
        if kind in TypeLabels then TypeLabels[kind] else kind
  }

  // ---------------------------------------------------------------------
  // Properties of the depth-first walk

  lemma {:induction false} DistinctConcat(a: seq<string>, b: seq<string>)
    requires Distinct(a) && Distinct(b)
    requires forall x | x in a :: x !in b
    ensures Distinct(a + b)
  {
    var c := a + b;
    forall i, j | 0 <= i < j < |c|
      ensures c[i] != c[j]
    {
      if i < |a| && |a| <= j {
        assert c[i] in a && c[j] == b[j - |a|];
      } else if |a| <= i {
        assert c[i] == b[i - |a|] && c[j] == b[j - |a|];
      }
    }
  }

  /** The walk appends every id at most once, and it appends exactly the
      ids it marks as visited. */
  lemma {:induction false} DfsVisits(g: map<string, seq<string>>, ids: set<string>, v: string, visited: set<string>)
    requires visited <= ids
    ensures var r := Dfs(g, ids, v, visited);
      Distinct(r.1) && forall x :: x in r.1 <==> x in r.0 && x !in visited
    decreases |ids - visited|, 0, 0
  {
    if v !in visited && v in ids {
      assert ids - (visited + {v}) == (ids - visited) - {v};
      var rest := DfsList(g, ids, Succ(g, v), visited + {v});
      DfsListVisits(g, ids, Succ(g, v), visited + {v});
      DistinctConcat([v], rest.1);
    }
  }

  lemma {:induction false} DfsListVisits(g: map<string, seq<string>>, ids: set<string>, ns: seq<string>, visited: set<string>)
    requires visited <= ids
    ensures var r := DfsList(g, ids, ns, visited);
      Distinct(r.1) && forall x :: x in r.1 <==> x in r.0 && x !in visited
    decreases |ids - visited|, 1, |ns|
  {
    if ns != [] {
      var first := Dfs(g, ids, ns[0], visited);
      DfsVisits(g, ids, ns[0], visited);
      CardMono(ids - first.0, ids - visited);
      DfsListVisits(g, ids, ns[1..], first.0);
      var rest := DfsList(g, ids, ns[1..], first.0);
      DistinctConcat(first.1, rest.1);
    }
  }

  /** Every successor that is a node, of every id in `inner`, is in `outer`. */
  ghost predicate ClosedUnder(g: map<string, seq<string>>, ids: set<string>, inner: set<string>, outer: set<string>) {
    forall u, w | u in inner && w in Succ(g, u) && w in ids :: w in outer
  }

  /** The walk from `v` visits `v` and, with it, every node reachable
      through the adjacency list from what it newly visited. */
  lemma {:induction false} DfsClosed(g: map<string, seq<string>>, ids: set<string>, v: string, visited: set<string>)
    requires visited <= ids
    ensures var r := Dfs(g, ids, v, visited);
      (v in ids ==> v in r.0) && ClosedUnder(g, ids, r.0 - visited, r.0)
    decreases |ids - visited|, 0, 0
  {
    if v !in visited && v in ids {
      assert ids - (visited + {v}) == (ids - visited) - {v};
      DfsListClosed(g, ids, Succ(g, v), visited + {v});
    }
  }

  lemma {:induction false} DfsListClosed(g: map<string, seq<string>>, ids: set<string>, ns: seq<string>, visited: set<string>)
    requires visited <= ids
    ensures var r := DfsList(g, ids, ns, visited);
      (forall n | n in ns && n in ids :: n in r.0) && ClosedUnder(g, ids, r.0 - visited, r.0)
    decreases |ids - visited|, 1, |ns|
  {
    if ns != [] {
      var first := Dfs(g, ids, ns[0], visited);
      DfsClosed(g, ids, ns[0], visited);
      CardMono(ids - first.0, ids - visited);
      DfsListClosed(g, ids, ns[1..], first.0);
      var rest := DfsList(g, ids, ns[1..], first.0);
      forall n | n in ns && n in ids
        ensures n in rest.0
      {
        if n != ns[0] {
          assert n in ns[1..];
        }
      }
    }
  }

  /** Each id of `s` is a root or a successor of an id listed before it: the
      order a depth-first walk produces. */
  ghost predicate Parented(g: map<string, seq<string>>, s: seq<string>, roots: seq<string>) {
    forall i | 0 <= i < |s| :: s[i] in roots || exists j | 0 <= j < i :: s[i] in Succ(g, s[j])
  }

  lemma {:induction false} ParentedConcat(g: map<string, seq<string>>, a: seq<string>, b: seq<string>, roots: seq<string>)
    requires Parented(g, a, roots) && Parented(g, b, roots)
    ensures Parented(g, a + b, roots)
  {
    var c := a + b;
    forall i | 0 <= i < |c| && c[i] !in roots
      ensures exists j | 0 <= j < i :: c[i] in Succ(g, c[j])
    {
      if i < |a| {
        var j :| 0 <= j < i && a[i] in Succ(g, a[j]);
        assert c[j] == a[j];
      } else {
        assert c[i] == b[i - |a|];
        var j :| 0 <= j < i - |a| && b[i - |a|] in Succ(g, b[j]);
        assert c[j + |a|] == b[j];
      }
    }
  }

  lemma {:induction false} ParentedWiderRoots(g: map<string, seq<string>>, s: seq<string>, roots: seq<string>, wider: seq<string>)
    requires Parented(g, s, roots)
    requires forall x | x in roots :: x in wider
    ensures Parented(g, s, wider)
  {
  }

  lemma ParentedCons(g: map<string, seq<string>>, v: string, rest: seq<string>)
    requires Parented(g, rest, Succ(g, v))
    ensures Parented(g, [v] + rest, [v])
  {
    var s := [v] + rest;
    forall i | 0 < i < |s|
      ensures exists j | 0 <= j < i :: s[i] in Succ(g, s[j])
    {
      assert s[i] == rest[i - 1];
      if s[i] in Succ(g, v) {
        assert s[i] in Succ(g, s[0]);
      } else {
        var j :| 0 <= j < i - 1 && rest[i - 1] in Succ(g, rest[j]);
        assert s[j + 1] == rest[j];
      }
    }
  }

  /** The walk from `v` starts with `v`, and every later id is a successor
      of an id the walk listed earlier. */
  lemma {:induction false} DfsParented(g: map<string, seq<string>>, ids: set<string>, v: string, visited: set<string>)
    requires visited <= ids
    ensures var r := Dfs(g, ids, v, visited);
      r.1 == [] || (r.1[0] == v && Parented(g, r.1, [v]))
    decreases |ids - visited|, 0, 0
  {
    if v !in visited && v in ids {
      assert ids - (visited + {v}) == (ids - visited) - {v};
      var rest := DfsList(g, ids, Succ(g, v), visited + {v});
      DfsListParented(g, ids, Succ(g, v), visited + {v});
      ParentedCons(g, v, rest.1);
    }
  }

  lemma {:induction false} DfsListParented(g: map<string, seq<string>>, ids: set<string>, ns: seq<string>, visited: set<string>)
    requires visited <= ids
    ensures Parented(g, DfsList(g, ids, ns, visited).1, ns)
    decreases |ids - visited|, 1, |ns|
  {
    if ns != [] {
      var first := Dfs(g, ids, ns[0], visited);
      DfsParented(g, ids, ns[0], visited);
      CardMono(ids - first.0, ids - visited);
      DfsListParented(g, ids, ns[1..], first.0);
      var rest := DfsList(g, ids, ns[1..], first.0);
      ParentedWiderRoots(g, first.1, [ns[0]], ns);
      ParentedWiderRoots(g, rest.1, ns[1..], ns);
      ParentedConcat(g, first.1, rest.1, ns);
    }
  }

  // ---------------------------------------------------------------------
  // Properties of the execution order

  /** Dropping the last node of a table with distinct ids leaves a table
      with distinct ids that does not hold the dropped id. */
  lemma DropLast(t: seq<Node>)
    requires t != [] && DistinctIds(t)
    ensures DistinctIds(t[..|t| - 1])
    ensures Ids(t) == Ids(t[..|t| - 1]) + {t[|t| - 1].id}
    ensures t[|t| - 1].id !in Ids(t[..|t| - 1])
  {
    assert t == t[..|t| - 1] + [t[|t| - 1]];
  }

  lemma {:induction false} UnvisitedFacts(t: seq<Node>, visited: set<string>)
    requires DistinctIds(t)
    ensures Distinct(Unvisited(t, visited))
    ensures forall x :: x in Unvisited(t, visited) <==> x in Ids(t) && x !in visited
  {
    if t != [] {
      var init, last := t[..|t| - 1], t[|t| - 1];
      DropLast(t);
      UnvisitedFacts(init, visited);
      if last.id !in visited {
        DistinctConcat(Unvisited(init, visited), [last.id]);
      }
    }
  }

  /** In a list of distinct ids each id occurs once. */
  lemma {:induction false} DistinctMultiset(s: seq<string>)
    requires Distinct(s)
    ensures forall x :: multiset(s)[x] == if x in s then 1 else 0
  {
    if s != [] {
      assert s == [s[0]] + s[1..];
      DistinctMultiset(s[1..]);
      assert s[0] !in s[1..];
    }
  }

  /** Two lists of distinct ids with the same members are permutations of
      each other. */
  lemma SamePermutation(a: seq<string>, b: seq<string>)
    requires Distinct(a) && Distinct(b)
    requires forall x :: x in a <==> x in b
    ensures multiset(a) == multiset(b)
  {
    DistinctMultiset(a);
    DistinctMultiset(b);
  }

  lemma {:induction false} DistinctIdSeq(t: seq<Node>)
    requires DistinctIds(t)
    ensures Distinct(IdSeq(t))
    ensures forall x :: x in IdSeq(t) <==> x in Ids(t)
  {
    var s := IdSeq(t);
    forall x | x in Ids(t)
      ensures x in s
    {
      var n :| n in t && n.id == x;
      var i :| 0 <= i < |t| && t[i] == n;
      assert s[i] == x;
    }
  }

  /** The walk part of the order: the ids the depth-first walk from the
      first user-query node lists. */
  function Walk(t: seq<Node>, g: map<string, seq<string>>): seq<string>
    requires Truthy(FirstOfType(t, UserQueryType))
  {
    Dfs(g, Ids(t), FirstOfType(t, UserQueryType).value, {}).1
  }

  /** With a user-query node to start from, the execution order lists every
      node exactly once (a permutation of the node ids), starts with that
      node, lists first the nodes the walk reaches (a set closed under the
      adjacency list, each one after a node it is a successor of) and then
      the rest in table order. */
  lemma DepthFirstOrder(t: seq<Node>, g: map<string, seq<string>>)
    requires DistinctIds(t)
    requires Truthy(FirstOfType(t, UserQueryType))
    ensures var o := ExecutionOrder(t, g);
      && Distinct(o)
      && multiset(o) == multiset(IdSeq(t))
      && |o| == |t|
      && o[0] == FirstOfType(t, UserQueryType).value
      && o == Walk(t, g) + Unvisited(t, set x | x in Walk(t, g))
      && Parented(g, Walk(t, g), [o[0]])
      && forall u, w | u in Walk(t, g) && w in Succ(g, u) && w in Ids(t) :: w in Walk(t, g)
  {
    var ids := Ids(t);
    var start := FirstOfType(t, UserQueryType).value;
    var r := Dfs(g, ids, start, {});
    assert start in ids;
    DfsVisits(g, ids, start, {});
    DfsClosed(g, ids, start, {});
    DfsParented(g, ids, start, {});
    UnvisitedFacts(t, r.0);
    assert (set x | x in r.1) == r.0;
    var o := ExecutionOrder(t, g);
    assert o == r.1 + Unvisited(t, r.0);
    DistinctConcat(r.1, Unvisited(t, r.0));
    DistinctIdSeq(t);
    SamePermutation(o, IdSeq(t));
    assert |o| == |multiset(o)| == |multiset(IdSeq(t))| == |t|;
  }

  // ---------------------------------------------------------------------
  // Properties of the fallback order

  /** The type of the node with id `x`, if there is one. */
  function KindOf(t: seq<Node>, x: string): Option<string> {
    match Lookup(t, x)
    case Some(n) => n.kind
    case None => None
  }

  /** The position of a type in the fallback order; 4 for every other type. */
  function TypeRank(kind: Option<string>): nat {
    if kind == Some(UserQueryType) then 0
    else if kind == Some(KnowledgeBaseType) then 1
    else if kind == Some(LlmEngineType) then 2
    else if kind == Some(OutputType) then 3
    else 4
  }

  ghost predicate RankSorted(t: seq<Node>, s: seq<string>) {
    forall i, j | 0 <= i < j < |s| :: TypeRank(KindOf(t, s[i])) <= TypeRank(KindOf(t, s[j]))
  }

  lemma {:induction false} IdsOfTypeFacts(t: seq<Node>, kind: string)
    requires DistinctIds(t)
    ensures Distinct(IdsOfType(t, kind))
    ensures forall x :: x in IdsOfType(t, kind) <==> x in Ids(t) && KindOf(t, x) == Some(kind)
  {
    if t != [] {
      var init, last := t[..|t| - 1], t[|t| - 1];
      DropLast(t);
      IdsOfTypeFacts(init, kind);
      LookupLast(t);
      if last.kind == Some(kind) {
        DistinctConcat(IdsOfType(init, kind), [last.id]);
      }
    }
  }

  /** Looking an id up in a table with distinct ids: the last node for its
      own id, the rest of the table for any other id. */
  lemma {:induction false} LookupLast(t: seq<Node>)
    requires t != [] && DistinctIds(t)
    ensures Lookup(t, t[|t| - 1].id) == Some(t[|t| - 1])
    ensures forall x | x != t[|t| - 1].id :: Lookup(t, x) == Lookup(t[..|t| - 1], x)
  {
    if |t| > 1 {
      assert t[1..][..|t| - 2] == t[..|t| - 1][1..];
      LookupLast(t[1..]);
    }
  }

  lemma {:induction false} RankSortedConcat(t: seq<Node>, a: seq<string>, b: seq<string>)
    requires RankSorted(t, a) && RankSorted(t, b)
    requires forall x, y | x in a && y in b :: TypeRank(KindOf(t, x)) <= TypeRank(KindOf(t, y))
    ensures RankSorted(t, a + b)
  {
    var c := a + b;
    forall i, j | 0 <= i < j < |c|
      ensures TypeRank(KindOf(t, c[i])) <= TypeRank(KindOf(t, c[j]))
    {
      if i < |a| && |a| <= j {
        assert c[i] in a && c[j] in b;
      } else if |a| <= i {
        assert c[i] == b[i - |a|] && c[j] == b[j - |a|];
      }
    }
  }

  /** Without a usable user-query node the order lists each user-query,
      knowledge-base, LLM and output node exactly once, grouped by type in
      that order, and leaves every other node out. */
  lemma FallbackOrderFacts(t: seq<Node>)
    requires DistinctIds(t)
    ensures Distinct(FallbackOrder(t))
    ensures forall x :: x in FallbackOrder(t) <==> x in Ids(t) && TypeRank(KindOf(t, x)) < 4
    ensures RankSorted(t, FallbackOrder(t))
  {
    var uq := IdsOfType(t, UserQueryType);
    assert GroupedBelow(t, [], 0);
    AppendGroup(t, [], UserQueryType, 0);
    assert [] + uq == uq;
    AppendGroup(t, uq, KnowledgeBaseType, 1);
    AppendGroup(t, uq + IdsOfType(t, KnowledgeBaseType), LlmEngineType, 2);
    AppendGroup(t, uq + IdsOfType(t, KnowledgeBaseType) + IdsOfType(t, LlmEngineType), OutputType, 3);
  }

  /** `s` lists, once each and sorted by rank, exactly the ids of the nodes
      whose type ranks below `r`. */
  ghost predicate GroupedBelow(t: seq<Node>, s: seq<string>, r: nat) {
    && Distinct(s)
    && (forall x :: x in s <==> x in Ids(t) && TypeRank(KindOf(t, x)) < r)
    && RankSorted(t, s)
  }

  /** Appending the group of the type of rank `r` extends the listing to
      rank `r + 1`. */
  lemma AppendGroup(t: seq<Node>, s: seq<string>, kind: string, r: nat)
    requires DistinctIds(t) && GroupedBelow(t, s, r)
    requires r < 4 && TypeRank(Some(kind)) == r
    ensures GroupedBelow(t, s + IdsOfType(t, kind), r + 1)
  {
    var g := IdsOfType(t, kind);
    IdsOfTypeFacts(t, kind);
    GroupHasRank(t, kind, r);
    DistinctConcat(s, g);
    RankSortedConcat(t, s, g);
  }

  /** The group of the type of rank `r` holds exactly the ids of rank `r`. */
  lemma GroupHasRank(t: seq<Node>, kind: string, r: nat)
    requires DistinctIds(t) && r < 4 && TypeRank(Some(kind)) == r
    ensures forall x :: x in IdsOfType(t, kind) <==> x in Ids(t) && TypeRank(KindOf(t, x)) == r
    ensures RankSorted(t, IdsOfType(t, kind))
  {
    IdsOfTypeFacts(t, kind);
  }

  // ---------------------------------------------------------------------
  // Properties of the pattern

  /** The classification has no answer exactly when all four node types are
      present but the user-query node has an edge to neither the LLM nor the
      knowledge-base node (or either of those two ids is empty). */
  lemma PatternUndefined(t: seq<Node>, es: seq<Edge>)
    ensures Pattern(t, es).None? <==>
      && HasType(t, UserQueryType) && HasType(t, KnowledgeBaseType)
      && HasType(t, LlmEngineType) && HasType(t, OutputType)
      && !DirectToLlm(t, es) && !ThroughKnowledge(t, es)
  {
  }

  /** A pipeline without a knowledge-base node but with the other three
      types is "simple" whatever its edges are; one missing any of user
      query, LLM or output is "custom". */
  lemma PatternWithoutKnowledge(t: seq<Node>, es: seq<Edge>)
    ensures !HasType(t, KnowledgeBaseType) ==>
      Pattern(t, es) == if HasType(t, UserQueryType) && HasType(t, LlmEngineType) && HasType(t, OutputType)
        then Some(SimpleLlm) else Some(Custom)
    ensures !HasType(t, UserQueryType) || !HasType(t, LlmEngineType) || !HasType(t, OutputType) ==>
      Pattern(t, es) == Some(Custom)
  {
  }

  /** With all four node types present, the edges out of the user-query
      node decide between the three knowledge-base-era pipelines, and the
      "simple" and "custom" answers are never given. */
  lemma PatternWithAllTypes(t: seq<Node>, es: seq<Edge>)
    requires HasType(t, UserQueryType) && HasType(t, KnowledgeBaseType)
    requires HasType(t, LlmEngineType) && HasType(t, OutputType)
    ensures Pattern(t, es) == Some(FullRag) <==> ThroughKnowledge(t, es) && !DirectToLlm(t, es)
    ensures Pattern(t, es) == Some(Hybrid) <==> ThroughKnowledge(t, es) && DirectToLlm(t, es)
    ensures Pattern(t, es) == Some(DirectLlm) <==> !ThroughKnowledge(t, es) && DirectToLlm(t, es)
    ensures Pattern(t, es) != Some(SimpleLlm) && Pattern(t, es) != Some(Custom)
  {
  }
}
