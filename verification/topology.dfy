/** Editing the topology (App.tsx `addComponent`, `removeComponent`,
    `addConnection`, `removeConnection`). Ids come from the wall clock in the
    editor; here they are parameters. */
module Topology {
  import opened Types
  import opened Seqs
  import opened Archetypes
  import opened Flow
  import opened Engine

  function ConnIds(conns: seq<Connection>): seq<string>
  {
    seq(|conns|, k requires 0 <= k < |conns| => conns[k].id)
  }

  /** Every connection names two components that exist. */
  predicate Resolved(s: SimState)
  {
    forall c :: c in s.connections ==> c.fromId in CompIds(s.components) && c.toId in CompIds(s.components)
  }

  /** No connection mentions `id` at either end. */
  predicate Unreferenced(conns: seq<Connection>, id: string)
  {
    forall c :: c in conns ==> c.fromId != id && c.toId != id
  }

  lemma InCompIds(comps: seq<Component>, id: string)
    ensures id in CompIds(comps) <==> exists c :: c in comps && c.id == id
  {
    if id in CompIds(comps) {
      var i :| 0 <= i < |comps| && CompIds(comps)[i] == id;
      assert comps[i] in comps;
    }
    if exists c :: c in comps && c.id == id {
      var c :| c in comps && c.id == id;
      var i :| 0 <= i < |comps| && comps[i] == c;
      assert CompIds(comps)[i] == id;
    }
  }

  /** Drop a new component of kind `k` on the canvas: it goes to the end of the list. */
  function AddComponent(s: SimState, k: Kind, id: string, name: string): (r: SimState)
    ensures r.isGridDown == s.isGridDown && r.totalLoad == s.totalLoad && r.connections == s.connections
    ensures |r.components| == |s.components| + 1 && r.components[..|s.components|] == s.components
    ensures r.components[|s.components|].id == id && r.components[|s.components|].kind == k
    ensures r.components[|s.components|] == NewComponent(k, id, name)
  {
    s.(components := s.components + [NewComponent(k, id, name)])
  }

  /** Delete a component together with every connection that touches it. */
  function RemoveComponent(s: SimState, id: string): (r: SimState)
    ensures r.isGridDown == s.isGridDown && r.totalLoad == s.totalLoad
    ensures forall c :: c in r.components <==> c in s.components && c.id != id
    ensures IsSubsequence(r.components, s.components)
    ensures forall c :: multiset(r.components)[c] == if c.id != id then multiset(s.components)[c] else 0
    ensures forall c :: c in r.connections <==> c in s.connections && c.fromId != id && c.toId != id
    ensures IsSubsequence(r.connections, s.connections)
    ensures forall c ::
      multiset(r.connections)[c] == if c.fromId != id && c.toId != id then multiset(s.connections)[c] else 0
    ensures id !in CompIds(r.components)
    ensures Unreferenced(r.connections, id)
  {
    var r := s.(components := Filter(s.components, (c: Component) => c.id != id),
                connections := Filter(s.connections, (c: Connection) => c.fromId != id && c.toId != id));
    InCompIds(r.components, id);
    r
  }

  /** Deleting a component never leaves a connection dangling. */
  lemma RemoveComponentKeepsResolved(s: SimState, id: string)
    requires Resolved(s)
    ensures Resolved(RemoveComponent(s, id))
  {
    var r := RemoveComponent(s, id);
    forall c | c in r.connections
      ensures c.fromId in CompIds(r.components) && c.toId in CompIds(r.components)
    {
      InCompIds(s.components, c.fromId);
      InCompIds(s.components, c.toId);
      InCompIds(r.components, c.fromId);
      InCompIds(r.components, c.toId);
    }
  }

  /** Deleting a component that was just added, before anything was wired to it, restores the state. */
  lemma AddThenRemoveComponent(s: SimState, k: Kind, id: string, name: string)
    requires id !in CompIds(s.components)
    requires Unreferenced(s.connections, id)
    ensures RemoveComponent(AddComponent(s, k, id, name), id) == s
  {
    var keep := (c: Component) => c.id != id;
    var keepConn := (c: Connection) => c.fromId != id && c.toId != id;
    InCompIds(s.components, id);
    FilterAppend(s.components, [NewComponent(k, id, name)], keep);
    FilterKeepsAll(s.components, keep);
    FilterKeepsAll(s.connections, keepConn);
  }

  /** Every archetype yields a well-formed component: its own ports and a state within bounds. */
  lemma NewComponentWellFormed(k: Kind, id: string, name: string)
    ensures WellFormed(NewComponent(k, id, name))
  {
    var c := NewComponent(k, id, name);
    assert c.rebootProgress.value % RebootStep == 0;
  }

  /** Adding a component keeps every component well-formed. */
  lemma AddComponentKeepsWellFormed(s: SimState, k: Kind, id: string, name: string)
    requires forall i :: 0 <= i < |s.components| ==> WellFormed(s.components[i])
    ensures var r := AddComponent(s, k, id, name);
      forall i :: 0 <= i < |r.components| ==> WellFormed(r.components[i])
  {
    NewComponentWellFormed(k, id, name);
  }

  /** A new connection starts inactive and undamaged, at the end of the list. */
  function AddConnection(s: SimState, id: string, fromId: string, fromPortId: string, toId: string, toPortId: string): (r: SimState)
    ensures r.isGridDown == s.isGridDown && r.totalLoad == s.totalLoad && r.components == s.components
    ensures |r.connections| == |s.connections| + 1 && r.connections[..|s.connections|] == s.connections
    ensures var c := r.connections[|s.connections|];
      c.id == id && c.fromId == fromId && c.fromPortId == fromPortId && c.toId == toId && c.toPortId == toPortId
      && !c.isActive && !c.isDamaged
  {
    s.(connections := s.connections + [Connection(id, fromId, fromPortId, toId, toPortId, false, false)])
  }

  /** Delete every connection with this id (the canvas's delete action does the same). */
  function RemoveConnection(s: SimState, id: string): (r: SimState)
    ensures r.isGridDown == s.isGridDown && r.totalLoad == s.totalLoad && r.components == s.components
    ensures forall c :: c in r.connections <==> c in s.connections && c.id != id
    ensures IsSubsequence(r.connections, s.connections)
    ensures forall c :: multiset(r.connections)[c] == if c.id != id then multiset(s.connections)[c] else 0
    ensures id !in ConnIds(r.connections)
  {
    var r := s.(connections := Filter(s.connections, (c: Connection) => c.id != id));
    assert forall k :: 0 <= k < |r.connections| ==> r.connections[k] in r.connections;
    r
  }

  lemma RemoveConnectionIdempotent(s: SimState, id: string)
    ensures RemoveConnection(RemoveConnection(s, id), id) == RemoveConnection(s, id)
  {
    FilterIdempotent(s.connections, (c: Connection) => c.id != id);
  }

  /** Deleting a connection keeps the topology resolved. */
  lemma RemoveConnectionKeepsResolved(s: SimState, id: string)
    requires Resolved(s)
    ensures Resolved(RemoveConnection(s, id))
  {
  }

  /** Removing a connection under a fresh id right after adding it restores the state. */
  lemma AddThenRemoveConnection(s: SimState, id: string, fromId: string, fromPortId: string, toId: string, toPortId: string)
    requires id !in ConnIds(s.connections)
    ensures RemoveConnection(AddConnection(s, id, fromId, fromPortId, toId, toPortId), id) == s
  {
    var keep := (c: Connection) => c.id != id;
    forall c | c in s.connections
      ensures keep(c)
    {
      var k :| 0 <= k < |s.connections| && s.connections[k] == c;
      assert ConnIds(s.connections)[k] == c.id;
    }
    FilterAppend(s.connections, [Connection(id, fromId, fromPortId, toId, toPortId, false, false)], keep);
    FilterKeepsAll(s.connections, keep);
  }
}
