/** The workflow store of the server: create, fetch, list, partially update
    and save the canvas of stored workflow records. The `workflows` table is
    a map from id to record and the wall clock a counter that ticks once
    per write. */
module WorkflowStore {
  import opened Wrappers
  import opened WorkflowModel

  /** `update_workflow`'s field rule: every argument that is not `None`
      overwrites its field, the others keep theirs, and `updated_at` is the
      time of the call. */
  function Patched(w: WorkflowRecord, name: Option<string>, description: Option<string>,
                   nodes: Option<seq<Node>>, edges: Option<seq<Edge>>, now: nat): (r: WorkflowRecord)
    ensures r.id == w.id && r.isActive == w.isActive && r.createdAt == w.createdAt
    ensures r.updatedAt == now
    ensures name.Some? ==> r.name == name.value
    ensures name.None? ==> r.name == w.name
    ensures description.Some? ==> r.description == description
    ensures description.None? ==> r.description == w.description
    ensures nodes.Some? ==> r.nodes == nodes.value
    ensures nodes.None? ==> r.nodes == w.nodes
    ensures edges.Some? ==> r.edges == edges.value
    ensures edges.None? ==> r.edges == w.edges
  {
    w.(name := name.GetOr(w.name),
       description := if description.Some? then description else w.description,
       nodes := nodes.GetOr(w.nodes),
       edges := edges.GetOr(w.edges),
       updatedAt := now)
  }

  /** `save_workflow_data`'s rule: nodes and edges replaced wholesale. */
  function Saved(w: WorkflowRecord, nodes: seq<Node>, edges: seq<Edge>, now: nat): (r: WorkflowRecord)
    ensures r == Patched(w, None, None, Some(nodes), Some(edges), now)
  {
    w.(nodes := nodes, edges := edges, updatedAt := now)
  }

  /** An update without arguments still refreshes `updated_at` and changes
      nothing else. */
  lemma PatchNothing(w: WorkflowRecord, now: nat)
    ensures Patched(w, None, None, None, None, now) == w.(updatedAt := now)
  {
  }

  /** Repeating an update changes only the time stamp. */
  lemma PatchTwice(w: WorkflowRecord, name: Option<string>, description: Option<string>,
                   nodes: Option<seq<Node>>, edges: Option<seq<Edge>>, t1: nat, t2: nat)
    ensures var once := Patched(w, name, description, nodes, edges, t1);
      Patched(once, name, description, nodes, edges, t2) == Patched(w, name, description, nodes, edges, t2)
  {
  }

  /** Passing `None` keeps the description, so no update can clear one. */
  lemma DescriptionNeverCleared(w: WorkflowRecord, name: Option<string>, description: Option<string>,
                                nodes: Option<seq<Node>>, edges: Option<seq<Edge>>, now: nat)
    requires w.description.Some?
    ensures Patched(w, name, description, nodes, edges, now).description.Some?
  {
  }

  /** The records of `s` are ordered newest first. */
  ghost predicate NewestFirst(s: seq<WorkflowRecord>) {
    forall i, j | 0 <= i < j < |s| :: s[i].updatedAt >= s[j].updatedAt
  }

  /** What `get_all_workflows` returns: every active stored record, each
      once, no other record, ordered by `updated_at` descending (records
      with equal times in any order). */
  ghost predicate IsActiveListing(db: map<int, WorkflowRecord>, r: seq<WorkflowRecord>) {
    && (forall i | 0 <= i < |r| :: r[i].id in db && db[r[i].id] == r[i] && r[i].isActive)
    && (forall k | k in db && db[k].isActive :: db[k] in r)
    && DistinctIds(r)
    && NewestFirst(r)
  }

  /** The index where `w` goes into a newest-first list: after every record
      that is strictly newer. */
  function RecencySlot(w: WorkflowRecord, s: seq<WorkflowRecord>): (p: nat)
    ensures p <= |s|
    ensures NewestFirst(s) ==> forall i | 0 <= i < p :: s[i].updatedAt > w.updatedAt
    ensures NewestFirst(s) ==> forall i | p <= i < |s| :: s[i].updatedAt <= w.updatedAt
  {
    if s == [] || s[0].updatedAt <= w.updatedAt then 0
    else
      var p := 1 + RecencySlot(w, s[1..]);
      assert NewestFirst(s) ==> NewestFirst(s[1..]);
      p
  }

  /** `w` inserted into `s` at its recency slot. */
  function InsertByRecency(w: WorkflowRecord, s: seq<WorkflowRecord>): (r: seq<WorkflowRecord>)
    ensures |r| == |s| + 1 && w in r
    ensures forall i | 0 <= i < |r| :: r[i] == w || r[i] in s
    ensures forall x | x in s :: x in r
    ensures multiset(r) == multiset(s) + multiset{w}
  {
    var p := RecencySlot(w, s);
    assert forall i | 0 <= i < |s| :: s[i] == (s[..p] + [w] + s[p..])[if i < p then i else i + 1];
    assert s == s[..p] + s[p..];
    s[..p] + [w] + s[p..]
  }

  /** Inserting at the recency slot keeps a list newest first. */
  lemma InsertKeepsNewestFirst(w: WorkflowRecord, s: seq<WorkflowRecord>)
    requires NewestFirst(s)
    ensures NewestFirst(InsertByRecency(w, s))
  {
    var p := RecencySlot(w, s);
    var r := InsertByRecency(w, s);
    assert r == s[..p] + [w] + s[p..];
    forall i, j | 0 <= i < j < |r|
      ensures r[i].updatedAt >= r[j].updatedAt
    {
      if j < p {
        assert r[i] == s[i] && r[j] == s[j];
      } else if j == p {
        assert r[i] == s[i];
      } else if i == p {
        assert r[j] == s[j - 1];
      } else if i < p {
        assert r[i] == s[i] && r[j] == s[j - 1];
      } else {
        assert r[i] == s[i - 1] && r[j] == s[j - 1];
      }
    }
  }

  /** Ids of `s` are pairwise different. */
  ghost predicate DistinctIds(s: seq<WorkflowRecord>) {
    forall i, j | 0 <= i < j < |s| :: s[i].id != s[j].id
  }

  /** Inserting a record whose id is new keeps ids pairwise different. */
  lemma InsertKeepsDistinctIds(w: WorkflowRecord, s: seq<WorkflowRecord>)
    requires DistinctIds(s)
    requires forall i | 0 <= i < |s| :: s[i].id != w.id
    ensures DistinctIds(InsertByRecency(w, s))
  {
    var p := RecencySlot(w, s);
    var r := InsertByRecency(w, s);
    assert r == s[..p] + [w] + s[p..];
    forall i, j | 0 <= i < j < |r|
      ensures r[i].id != r[j].id
    {
      if j < p {
        assert r[i] == s[i] && r[j] == s[j];
      } else if j == p {
        assert r[i] == s[i];
      } else if i == p {
        assert r[j] == s[j - 1];
      } else if i < p {
        assert r[i] == s[i] && r[j] == s[j - 1];
      } else {
        assert r[i] == s[i - 1] && r[j] == s[j - 1];
      }
    }
  }

  /** If one active record is strictly newer than every other stored
      record, it heads the listing. */
  lemma {:induction false} NewestListedFirst(db: map<int, WorkflowRecord>, r: seq<WorkflowRecord>, id: int)
    requires IsActiveListing(db, r)
    requires id in db && db[id].isActive
    requires forall k | k in db && k != id :: db[k].updatedAt < db[id].updatedAt
    ensures r != [] && r[0] == db[id]
  {
    assert db[id] in r;
    var i :| 0 <= i < |r| && r[i] == db[id];
    assert r[0].updatedAt >= r[i].updatedAt;
  }

  /** A set that is not empty has a member. */
  lemma HasMember(s: set<int>)
    requires s != {}
    ensures exists k :: k in s
  {
    if forall k :: k !in s {
      assert false;
    }
  }

  /** `WorkflowManageService` over one session. */
  class WorkflowManageService {
    /** The `workflows` table. */
    var db: map<int, WorkflowRecord>
    /** The time of the latest write. */
    var clock: nat
    /** The id the database assigns to the next inserted row. */
    var nextId: int

    /** Every row is stored under its own id, ids already handed out are
        below `nextId`, and no row was created after it was last updated or
        updated after the current time. */
    ghost predicate Valid()
      reads this
    {
      forall k | k in db ::
        && db[k].id == k && k < nextId
        && db[k].createdAt <= db[k].updatedAt <= clock
    }

    constructor (rows: map<int, WorkflowRecord>, now: nat, next: int)
      requires forall k | k in rows :: rows[k].id == k && k < next && rows[k].createdAt <= rows[k].updatedAt <= now
      ensures Valid()
      ensures db == rows && clock == now && nextId == next
    {
      db := rows;
      clock := now;
      nextId := next;
    }

    /** `create_workflow`: a new active row with the given name and
        description, no nodes and no edges, under a fresh id. */
    method CreateWorkflow(name: string, description: Option<string>) returns (w: WorkflowRecord)
      requires Valid()
      modifies this
      ensures Valid()
      ensures w.id !in old(db) && w.id == old(nextId)
      ensures w == WorkflowRecord(w.id, name, description, [], [], true, clock, clock)
      ensures clock == old(clock) + 1 && nextId == old(nextId) + 1
      ensures db == old(db)[w.id := w]
      ensures forall k | k in db && k != w.id :: db[k].updatedAt < w.updatedAt
    {
      clock := clock + 1;
      w := WorkflowRecord(nextId, name, description, [], [], true, clock, clock);
      db := db[nextId := w];
      nextId := nextId + 1;
    }

    /** `get_workflow_by_id`: the row with that id, active or not. */
    method GetWorkflowById(id: int) returns (r: Option<WorkflowRecord>)
      ensures r.Some? <==> id in db
      ensures r.Some? ==> r.value == db[id] && r.value.id == id
      requires Valid()
    {
      r := if id in db then Some(db[id]) else None;
    }

    /** `get_all_workflows`: the active rows, newest first. */
    method GetAllWorkflows() returns (r: seq<WorkflowRecord>)
      requires Valid()
      ensures IsActiveListing(db, r)
    {
      var pending := db.Keys;
      r := [];
      while pending != {}
        invariant pending <= db.Keys
        invariant forall i | 0 <= i < |r| :: r[i].id in db && db[r[i].id] == r[i] && r[i].isActive && r[i].id !in pending
        invariant forall k | k in db && k !in pending && db[k].isActive :: db[k] in r
        invariant DistinctIds(r)
        invariant NewestFirst(r)
        decreases pending
      {
        HasMember(pending);
        var k :| k in pending;
        if db[k].isActive {
          InsertKeepsNewestFirst(db[k], r);
          InsertKeepsDistinctIds(db[k], r);
          r := InsertByRecency(db[k], r);
        }
        pending := pending - {k};
      }
    }

    /** `update_workflow`: an unknown id changes nothing and gives `None`;
        otherwise the row is patched, stamped with a new time and returned. */
    method UpdateWorkflow(id: int, name: Option<string>, description: Option<string>,
                          nodes: Option<seq<Node>>, edges: Option<seq<Edge>>) returns (r: Option<WorkflowRecord>)
      requires Valid()
      modifies this
      ensures Valid()
      ensures nextId == old(nextId)
      ensures id !in old(db) ==> r.None? && db == old(db) && clock == old(clock)
      ensures id in old(db) ==>
        && clock == old(clock) + 1
        && r == Some(Patched(old(db)[id], name, description, nodes, edges, clock))
        && db == old(db)[id := r.value]
    {
      var found := GetWorkflowById(id);
      if found.None? {
        return None;
      }
      clock := clock + 1;
      var w := Patched(found.value, name, description, nodes, edges, clock);
      db := db[id := w];
      r := Some(w);
    }

    /** `save_workflow_data`: an unknown id changes nothing and gives
        `None`; otherwise the row's nodes and edges are replaced and it is
        stamped with a new time. */
    method SaveWorkflowData(id: int, nodes: seq<Node>, edges: seq<Edge>) returns (r: Option<WorkflowRecord>)
      requires Valid()
      modifies this
      ensures Valid()
      ensures nextId == old(nextId)
      ensures id !in old(db) ==> r.None? && db == old(db) && clock == old(clock)
      ensures id in old(db) ==>
        && clock == old(clock) + 1
        && r == Some(Saved(old(db)[id], nodes, edges, clock))
        && db == old(db)[id := r.value]
    {
      var found := GetWorkflowById(id);
      if found.None? {
        return None;
      }
      clock := clock + 1;
      var w := Saved(found.value, nodes, edges, clock);
      db := db[id := w];
      r := Some(w);
    }
  }

  /** Creating a workflow and listing the store shows the new workflow
      first: it is the only row written at the latest time. */
  method CreateThenList(store: WorkflowManageService, name: string, description: Option<string>)
      returns (w: WorkflowRecord, listing: seq<WorkflowRecord>)
    requires store.Valid()
    modifies store
    ensures store.Valid()
    ensures listing != [] && listing[0] == w
    ensures w.name == name && w.description == description && w.nodes == [] && w.edges == []
  {
    w := store.CreateWorkflow(name, description);
    listing := store.GetAllWorkflows();
    NewestListedFirst(store.db, listing, w.id);
  }
}
