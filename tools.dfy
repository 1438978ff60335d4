/**
 * The registry-editing tools of backend/agency.py as functions on the registry:
 * `create_new_agent_helper`, `remove_agent_helper`, `message_agent_helper` and the
 * `Agent.run` they share. The imperative versions in the `Agency` class are proved
 * to compute exactly these.
 */
module Tools {
  import opened Wrappers
  import opened Agents
  import opened Servers

  // ---------------------------------------------------------------------------
  // create_new_agent_helper

  /**
   * The agent `create_new_agent_helper` builds: every tool, an empty capability map
   * (the source passes an empty list) and no server.
   */
  function Newborn(id: string, name: string, provider: string, systemPrompt: string): (a: Agent)
    ensures a.id == id && a.name == name && a.history == [SystemPrompt(systemPrompt)]
    ensures a.parentId == None && a.children == [] && a.accessibleTools == map[] && a.mcpServerIds == []
  {
    NewAgent(id, name, provider, systemPrompt, AllTools, map[], [])
  }

  function CreatedReply(name: string, newId: string): string {
    "Created agent: " + name + " with ID: " + newId
  }

  /**
   * The registry after `create_new_agent_helper` called by agent `parentId`, once `next_id`
   * has returned `newId`: the new object is registered, then linked into the `children` of
   * the agent registered under `parentId` if there is one. Its `parent_id` is left `None`.
   */
  function Created(reg: Registry, newId: string, name: string, provider: string, systemPrompt: string,
                   parentId: string): (r: Registry)
    requires RegistryInHeap(reg.heap, reg.agents)
  {
    var reg1 := Insert(reg, newId, Newborn(newId, name, provider, systemPrompt));
    if parentId in reg1.agents then
      var p := reg1.agents[parentId];
      reg1.(heap := reg1.heap[p := reg1.heap[p].(children := SetLink(reg1.heap[p].children, newId, |reg.heap|))])
    else reg1
  }

  /**
   * Creation registers exactly one new object under the new id; it starts with the system
   * prompt as its only history entry, no parent id and no capability; only the parent's
   * `children` gains an entry, and no other agent changes.
   */
  lemma CreatedEffect(reg: Registry, newId: string, name: string, provider: string, systemPrompt: string,
                      parentId: string)
    requires RegistryInHeap(reg.heap, reg.agents)
    ensures var r := Created(reg, newId, name, provider, systemPrompt, parentId);
      && |r.heap| == |reg.heap| + 1
      && r.agents == reg.agents[newId := |reg.heap|]
      && r.order == (if newId in reg.agents then reg.order else reg.order + [newId])
    ensures var a := Created(reg, newId, name, provider, systemPrompt, parentId).heap[|reg.heap|];
      && a.id == newId && a.name == name && a.provider == provider && a.systemPrompt == systemPrompt
      && a.history == [SystemPrompt(systemPrompt)] && a.parentId == None && a.accessibleTools == map[]
    ensures parentId != newId ==>
      Created(reg, newId, name, provider, systemPrompt, parentId).heap[|reg.heap|] == Newborn(newId, name, provider, systemPrompt)
    ensures parentId == newId ==>
      Created(reg, newId, name, provider, systemPrompt, parentId).heap[|reg.heap|].children == [Link(newId, |reg.heap|)]
    ensures forall o :: 0 <= o < |reg.heap| ==>
      Created(reg, newId, name, provider, systemPrompt, parentId).heap[o] ==
        if parentId in reg.agents && parentId != newId && o == reg.agents[parentId]
        then reg.heap[o].(children := SetLink(reg.heap[o].children, newId, |reg.heap|))
        else reg.heap[o]
  {
  }

  /**
   * In a coherent registry nothing refers to the new object before creation, so after it some
   * `children` dict holds the new object exactly when the parent id is registered.
   */
  lemma CreatedLinkedIffParent(reg: Registry, newId: string, name: string, provider: string, systemPrompt: string,
                               parentId: string)
    requires Coherent(reg)
    ensures var r := Created(reg, newId, name, provider, systemPrompt, parentId);
      (exists o :: 0 <= o < |r.heap| && Link(newId, |reg.heap|) in r.heap[o].children) <==> parentId in r.agents
  {
    var r := Created(reg, newId, name, provider, systemPrompt, parentId);
    var reg1 := Insert(reg, newId, Newborn(newId, name, provider, systemPrompt));
    if parentId in r.agents {
      var p := reg1.agents[parentId];
      var ls := reg1.heap[p].children;
      if HasLink(ls, newId) {
        var i :| 0 <= i < |ls| && ls[i].id == newId;
        if p < |reg.heap| {
          assert UniqueIds(ls) by { assert LinksCoherent(reg.heap, reg.heap[p].children); }
        }
        assert SetLink(ls, newId, |reg.heap|)[i] == Link(newId, |reg.heap|);
      } else {
        assert SetLink(ls, newId, |reg.heap|)[|ls|] == Link(newId, |reg.heap|);
      }
      assert Link(newId, |reg.heap|) in r.heap[p].children;
    } else {
      forall o | 0 <= o < |r.heap|
        ensures Link(newId, |reg.heap|) !in r.heap[o].children
      {
        if o < |reg.heap| {
          assert LinksCoherent(reg.heap, reg.heap[o].children);
        }
      }
    }
  }

  /** Creation keeps the registry coherent. */
  lemma CreatedCoherent(reg: Registry, newId: string, name: string, provider: string, systemPrompt: string,
                        parentId: string)
    requires Coherent(reg)
    ensures Coherent(Created(reg, newId, name, provider, systemPrompt, parentId))
  {
    var a := Newborn(newId, name, provider, systemPrompt);
    InsertCoherent(reg, newId, a);
    var reg1 := Insert(reg, newId, a);
    if parentId in reg1.agents {
      var p := reg1.agents[parentId];
      assert LinksCoherent(reg1.heap, reg1.heap[p].children);
      SetLinkCoherent(reg1.heap, reg1.heap[p].children, newId, |reg.heap|);
      ReplaceAgentCoherent(reg1, p, reg1.heap[p].(children := SetLink(reg1.heap[p].children, newId, |reg.heap|)));
    }
  }

  // ---------------------------------------------------------------------------
  // remove_agent_helper

  /**
   * The first step of `remove_agent_helper` on a registered id: when the agent has a parent id,
   * its entry is deleted from the `children` of the agent registered under that id. Both the
   * lookup and the deletion raise `KeyError` when the key is missing.
   */
  function Detached(reg: Registry, id: string): (r: Result<seq<Agent>, Raised>)
    requires RegistryInHeap(reg.heap, reg.agents) && id in reg.agents
    ensures r.Err? <==> (reg.heap[reg.agents[id]].parentId.Some? &&
      var p := reg.heap[reg.agents[id]].parentId.value;
      p !in reg.agents || !HasLink(reg.heap[reg.agents[p]].children, id))
    ensures r.Ok? ==> |r.value| == |reg.heap|
  {
    match reg.heap[reg.agents[id]].parentId
    case None => Ok(reg.heap)
    case Some(p) =>
      if p !in reg.agents then Err(KeyError(p))
      else
        var po := reg.agents[p];
        match DelLink(reg.heap[po].children, id)
        case None => Err(KeyError(id))
        case Some(ls) => Ok(reg.heap[po := reg.heap[po].(children := ls)])
  }

  /**
   * The loop over the removed agent's child ids: each is looked up in the registry (a missing
   * one raises `KeyError`, with the earlier ones already done) and that agent's parent id is
   * cleared. Returns the heap and the exception, if any.
   */
  function Orphaned(heap: seq<Agent>, agents: map<string, nat>, childIds: seq<string>): (r: (seq<Agent>, Option<Raised>))
    requires RegistryInHeap(heap, agents)
    ensures |r.0| == |heap|
    ensures r.1.Some? ==> r.1.value.KeyError? && r.1.value.key !in agents
    decreases |childIds|
  {
    if childIds == [] then (heap, None)
    else if childIds[0] !in agents then (heap, Some(KeyError(childIds[0])))
    else
      var c := agents[childIds[0]];
      Orphaned(heap[c := heap[c].(parentId := None)], agents, childIds[1..])
  }

  /** The orphaning loop runs to the end exactly when every listed id is registered. */
  lemma {:induction false} OrphanedOkIff(heap: seq<Agent>, agents: map<string, nat>, childIds: seq<string>)
    requires RegistryInHeap(heap, agents)
    ensures Orphaned(heap, agents, childIds).1.None? <==> forall c :: c in childIds ==> c in agents
    decreases |childIds|
  {
    if childIds != [] && childIds[0] in agents {
      var c := agents[childIds[0]];
      OrphanedOkIff(heap[c := heap[c].(parentId := None)], agents, childIds[1..]);
      assert forall d :: d in childIds <==> d == childIds[0] || d in childIds[1..];
    }
  }

  /** The orphaning loop stops at the first unregistered id and raises `KeyError` for it. */
  lemma {:induction false} OrphanedStopsAt(heap: seq<Agent>, agents: map<string, nat>, done: seq<string>,
                                           x: string, rest: seq<string>)
    requires RegistryInHeap(heap, agents)
    requires forall c :: c in done ==> c in agents
    requires x !in agents
    ensures Orphaned(heap, agents, done + [x] + rest).1 == Some(KeyError(x))
    decreases |done|
  {
    if done == [] {
      assert done + [x] + rest == [x] + rest;
    } else {
      var c := agents[done[0]];
      assert (done + [x] + rest)[1..] == done[1..] + [x] + rest;
      OrphanedStopsAt(heap[c := heap[c].(parentId := None)], agents, done[1..], x, rest);
    }
  }

  /** The orphaning loop clears exactly the parent ids of the agents registered under the listed ids. */
  lemma {:induction false} OrphanedAt(heap: seq<Agent>, agents: map<string, nat>, childIds: seq<string>, o: nat)
    requires RegistryInHeap(heap, agents) && o < |heap|
    requires forall c :: c in childIds ==> c in agents
    ensures Orphaned(heap, agents, childIds).0[o] ==
      if exists c :: c in childIds && agents[c] == o then heap[o].(parentId := None) else heap[o]
    decreases |childIds|
  {
    if childIds != [] {
      var c := agents[childIds[0]];
      var heap1 := heap[c := heap[c].(parentId := None)];
      OrphanedAt(heap1, agents, childIds[1..], o);
      assert forall d :: d in childIds <==> d == childIds[0] || d in childIds[1..];
    }
  }

  /** Whether or not it reaches the end, the orphaning loop changes parent ids only, and only to `None`. */
  lemma {:induction false} OrphanedKeeps(heap: seq<Agent>, agents: map<string, nat>, childIds: seq<string>, o: nat)
    requires RegistryInHeap(heap, agents) && o < |heap|
    ensures Orphaned(heap, agents, childIds).0[o] == heap[o].(parentId := Orphaned(heap, agents, childIds).0[o].parentId)
    ensures Orphaned(heap, agents, childIds).0[o].parentId in {heap[o].parentId, None}
    decreases |childIds|
  {
    if childIds != [] && childIds[0] in agents {
      var c := agents[childIds[0]];
      OrphanedKeeps(heap[c := heap[c].(parentId := None)], agents, childIds[1..], o);
    }
  }

  /** The parent step changes the parent's `children` and nothing else. */
  lemma DetachedAt(reg: Registry, id: string, o: nat)
    requires RegistryInHeap(reg.heap, reg.agents) && id in reg.agents && Detached(reg, id).Ok? && o < |reg.heap|
    ensures Detached(reg, id).value[o] ==
      if reg.heap[reg.agents[id]].parentId.Some? && o == reg.agents[reg.heap[reg.agents[id]].parentId.value]
      then reg.heap[o].(children := Without(reg.heap[o].children, id))
      else reg.heap[o]
  {
  }

  function RemovedReply(id: string): string {
    "Removed agent with ID: " + id
  }

  function AbsentReply(id: string): string {
    "Agent with ID " + id + " does not exist."
  }

  /**
   * `remove_agent_helper`: the registry afterwards and the reply or the exception. An exception
   * leaves the registry as far as the helper got: the parent already unlinked, some children
   * already orphaned, the id still registered.
   */
  function Removed(reg: Registry, id: string): (r: (Registry, Result<string, Raised>))
    requires RegistryInHeap(reg.heap, reg.agents)
    ensures id !in reg.agents ==> r == (reg, Ok(AbsentReply(id)))
    ensures r.1.Err? ==> r.1.error.KeyError? && r.0.agents == reg.agents && r.0.order == reg.order
    ensures r.1.Ok? && id in reg.agents ==> r.1.value == RemovedReply(id)
  {
    if id !in reg.agents then (reg, Ok(AbsentReply(id)))
    else
      match Detached(reg, id)
      case Err(e) => (reg, Err(e))
      case Ok(heap1) =>
        var orphaned := Orphaned(heap1, reg.agents, LinkIds(heap1[reg.agents[id]].children));
        if orphaned.1.Some? then (reg.(heap := orphaned.0), Err(orphaned.1.value))
        else (Delete(reg.(heap := orphaned.0), id), Ok(RemovedReply(id)))
  }

  /**
   * A removal of a registered id succeeds exactly when the parent step succeeds and every child
   * id left in the agent's `children` after it is registered.
   */
  lemma RemovedOkIff(reg: Registry, id: string)
    requires RegistryInHeap(reg.heap, reg.agents) && id in reg.agents
    ensures Removed(reg, id).1.Ok? <==>
      Detached(reg, id).Ok? &&
      forall c :: c in LinkIds(Detached(reg, id).value[reg.agents[id]].children) ==> c in reg.agents
  {
    if Detached(reg, id).Ok? {
      var heap1 := Detached(reg, id).value;
      OrphanedOkIff(heap1, reg.agents, LinkIds(heap1[reg.agents[id]].children));
    }
  }

  /** The steps of a successful removal, named. */
  lemma RemovedSteps(reg: Registry, id: string) returns (heap1: seq<Agent>, heap2: seq<Agent>)
    requires RegistryInHeap(reg.heap, reg.agents) && id in reg.agents && Removed(reg, id).1.Ok?
    ensures Detached(reg, id) == Ok(heap1) && |heap1| == |reg.heap|
    ensures forall c :: c in LinkIds(heap1[reg.agents[id]].children) ==> c in reg.agents
    ensures heap2 == Orphaned(heap1, reg.agents, LinkIds(heap1[reg.agents[id]].children)).0
    ensures Removed(reg, id).0 == Delete(reg.(heap := heap2), id)
  {
    RemovedOkIff(reg, id);
    heap1 := Detached(reg, id).value;
    heap2 := Orphaned(heap1, reg.agents, LinkIds(heap1[reg.agents[id]].children)).0;
  }

  /** A successful removal of a registered id drops exactly that id from the registry. */
  lemma RemovedRegistry(reg: Registry, id: string)
    requires Coherent(reg) && id in reg.agents && Removed(reg, id).1.Ok?
    ensures Removed(reg, id).0.agents == reg.agents - {id}
    ensures |Removed(reg, id).0.agents| == |reg.agents| - 1
    ensures forall k :: k in Removed(reg, id).0.order <==> k in reg.order && k != id
    ensures |Removed(reg, id).0.heap| == |reg.heap|
  {
    var heap1, heap2 := RemovedSteps(reg, id);
    assert (reg.agents - {id}).Keys == reg.agents.Keys - {id};
  }

  /** After a successful removal every former child (other than the agent itself) is registered, with no parent id. */
  lemma RemovedOrphans(reg: Registry, id: string, c: string)
    requires Coherent(reg) && id in reg.agents && Removed(reg, id).1.Ok?
    requires c in LinkIds(reg.heap[reg.agents[id]].children) && c != id
    ensures c in Removed(reg, id).0.agents
    ensures Removed(reg, id).0.heap[Removed(reg, id).0.agents[c]].parentId == None
  {
    var x := reg.agents[id];
    var heap1, heap2 := RemovedSteps(reg, id);
    var ids := LinkIds(heap1[x].children);
    DetachedAt(reg, id, x);
    var i :| 0 <= i < |reg.heap[x].children| && reg.heap[x].children[i].id == c;
    var l := reg.heap[x].children[i];
    assert l in heap1[x].children;
    var j :| 0 <= j < |heap1[x].children| && heap1[x].children[j] == l;
    assert ids[j] == c;
    OrphanedAt(heap1, reg.agents, ids, reg.agents[c]);
  }

  /**
   * A successful removal deletes the id from its parent's `children` only when the agent had
   * a parent id, touches no other `children` dict, clears parent ids and changes no other field.
   */
  lemma RemovedAt(reg: Registry, id: string, o: nat)
    requires Coherent(reg) && id in reg.agents && Removed(reg, id).1.Ok? && o < |reg.heap|
    ensures Removed(reg, id).0.heap[o].children ==
      if reg.heap[reg.agents[id]].parentId.Some? && o == reg.agents[reg.heap[reg.agents[id]].parentId.value]
      then Without(reg.heap[o].children, id)
      else reg.heap[o].children
    ensures Removed(reg, id).0.heap[o] ==
      reg.heap[o].(parentId := Removed(reg, id).0.heap[o].parentId, children := Removed(reg, id).0.heap[o].children)
    ensures Removed(reg, id).0.heap[o].parentId in {reg.heap[o].parentId, None}
  {
    var heap1, heap2 := RemovedSteps(reg, id);
    DetachedAt(reg, id, o);
    OrphanedKeeps(heap1, reg.agents, LinkIds(heap1[reg.agents[id]].children), o);
  }

  /** A coherent registry stays coherent through a removal, whether it succeeds or raises. */
  lemma RemovedCoherent(reg: Registry, id: string)
    requires Coherent(reg)
    ensures Coherent(Removed(reg, id).0)
  {
    if id in reg.agents && Detached(reg, id).Ok? {
      var x := reg.agents[id];
      var heap1 := Detached(reg, id).value;
      var ids := LinkIds(heap1[x].children);
      var heap2 := Orphaned(heap1, reg.agents, ids).0;
      forall o | 0 <= o < |heap2|
        ensures heap2[o].id == reg.heap[o].id
        ensures heap1[o].children == reg.heap[o].children || heap1[o].children == Without(reg.heap[o].children, id)
        ensures heap2[o].children == heap1[o].children
      {
        DetachedAt(reg, id, o);
        OrphanedKeeps(heap1, reg.agents, ids, o);
      }
      forall o | 0 <= o < |heap2|
        ensures LinksCoherent(heap2, heap2[o].children)
      {
        DetachedCoherentAt(reg, id, heap1, heap2, o);
      }
      if Removed(reg, id).1.Ok? {
        DeleteCoherent(reg.(heap := heap2), id);
      }
    }
  }

  /** A `children` dict after the removal steps is coherent with the heap they leave. */
  lemma DetachedCoherentAt(reg: Registry, id: string, heap1: seq<Agent>, heap2: seq<Agent>, o: nat)
    requires Coherent(reg) && id in reg.agents && o < |reg.heap|
    requires |heap1| == |reg.heap| == |heap2|
    requires heap1[o].children == reg.heap[o].children || heap1[o].children == Without(reg.heap[o].children, id)
    requires heap2[o].children == heap1[o].children
    requires forall p :: 0 <= p < |reg.heap| ==> heap2[p].id == reg.heap[p].id
    ensures LinksCoherent(heap2, heap2[o].children)
  {
    var ls := reg.heap[o].children;
    assert LinksCoherent(reg.heap, ls);
    if heap1[o].children != ls {
      WithoutUnique(ls, id);
      var ws := heap1[o].children;
      forall i | 0 <= i < |ws|
        ensures ws[i].obj < |heap2| && heap2[ws[i].obj].id == ws[i].id
      {
        assert ws[i] in ls;
      }
    }
  }

  // ---------------------------------------------------------------------------
  // Agent.run and message_agent_helper

  /**
   * `Agent.run` on object `o` with the backend's `reply`: every listed server that is not
   * running is started; a successful reply extends the history by its new messages and
   * returns its text, a failing one leaves the history alone and propagates.
   */
  function Ran(heap: seq<Agent>, servers: ServerTable, o: nat, reply: Reply): (r: (seq<Agent>, ServerTable, Result<string, Raised>))
    requires o < |heap|
  {
    var servers' := StartAll(servers, heap[o].mcpServerIds);
    match reply
    case Answered(newMessages, data) => (Append(heap, o, newMessages), servers', Ok(data))
    case Failed(error) => (heap, servers', Err(BackendError(error)))
  }

  /**
   * A run keeps the previous history as a prefix and appends the new messages in order,
   * touches no other field and no other agent, and leaves every listed registered server running.
   */
  lemma RanEffect(heap: seq<Agent>, servers: ServerTable, o: nat, reply: Reply)
    requires o < |heap|
    ensures |Ran(heap, servers, o, reply).0| == |heap|
    ensures heap[o].history <= Ran(heap, servers, o, reply).0[o].history
    ensures reply.Answered? ==> Ran(heap, servers, o, reply).0[o].history == heap[o].history + reply.newMessages
    ensures reply.Answered? ==> Ran(heap, servers, o, reply).2 == Ok(reply.data)
    ensures reply.Failed? ==> Ran(heap, servers, o, reply).0 == heap && Ran(heap, servers, o, reply).2 == Err(BackendError(reply.error))
    ensures Ran(heap, servers, o, reply).0[o] == heap[o].(history := Ran(heap, servers, o, reply).0[o].history)
    ensures forall p :: 0 <= p < |heap| && p != o ==> Ran(heap, servers, o, reply).0[p] == heap[p]
    ensures forall k :: 0 <= k < |heap[o].mcpServerIds| && heap[o].mcpServerIds[k] in servers.registered ==>
      Running(Ran(heap, servers, o, reply).1, heap[o].mcpServerIds[k])
  {
    StartAllEffect(servers, heap[o].mcpServerIds);
  }

  /** `message_agent_helper`: an unknown id gets a reply saying so and changes nothing. */
  function Messaged(reg: Registry, servers: ServerTable, id: string, reply: Reply): (r: (seq<Agent>, ServerTable, Result<string, Raised>))
    requires RegistryInHeap(reg.heap, reg.agents)
    ensures id !in reg.agents ==> r == (reg.heap, servers, Ok(AbsentReply(id)))
    ensures id in reg.agents ==> r == Ran(reg.heap, servers, reg.agents[id], reply)
  {
    if id !in reg.agents then (reg.heap, servers, Ok(AbsentReply(id)))
    else Ran(reg.heap, servers, reg.agents[id], reply)
  }

  /**
   * A consequence of the parent id never being set by `create_new_agent`: removing a child made
   * by the tool leaves its entry in the parent's `children`, and removing the parent afterwards
   * raises `KeyError` for the child's id.
   */
  lemma RemovingToolChildStrandsTheLink(reg: Registry, newId: string, name: string, provider: string,
                                        systemPrompt: string, parentId: string)
    requires Coherent(reg) && parentId in reg.agents && newId !in reg.agents && parentId != newId
    requires reg.heap[reg.agents[parentId]].parentId.None?
    requires forall c :: c in LinkIds(reg.heap[reg.agents[parentId]].children) ==> c in reg.agents
    ensures var created := Created(reg, newId, name, provider, systemPrompt, parentId);
      && Removed(created, newId).1.Ok?
      && HasLink(Removed(created, newId).0.heap[Removed(created, newId).0.agents[parentId]].children, newId)
      && Removed(Removed(created, newId).0, parentId).1 == Err(KeyError(newId))
  {
    var n := |reg.heap|;
    var p := reg.agents[parentId];
    CreatedEffect(reg, newId, name, provider, systemPrompt, parentId);
    var created := Created(reg, newId, name, provider, systemPrompt, parentId);
    RemovingNewborn(reg, newId, name, provider, systemPrompt, parentId);
    var removed := Delete(created, newId);
    // the parent's dict still ends with the new entry
    var before := reg.heap[p].children;
    assert !HasLink(before, newId);
    var ls := created.heap[p].children;
    assert ls == before + [Link(newId, n)];
    assert ls[|before|].id == newId;
    assert removed.agents[parentId] == p;
    assert Detached(removed, parentId) == Ok(removed.heap);
    assert LinkIds(ls) == LinkIds(before) + [newId] + [];
    OrphanedStopsAt(removed.heap, removed.agents, LinkIds(before), newId, []);
  }

  /** An agent just made by the tool has no parent id and no children: removing it only unregisters it. */
  lemma RemovingNewborn(reg: Registry, newId: string, name: string, provider: string,
                        systemPrompt: string, parentId: string)
    requires RegistryInHeap(reg.heap, reg.agents) && parentId != newId
    ensures var created := Created(reg, newId, name, provider, systemPrompt, parentId);
      Removed(created, newId) == (Delete(created, newId), Ok(RemovedReply(newId)))
  {
    CreatedEffect(reg, newId, name, provider, systemPrompt, parentId);
    var created := Created(reg, newId, name, provider, systemPrompt, parentId);
    assert Detached(created, newId) == Ok(created.heap);
    assert LinkIds(created.heap[|reg.heap|].children) == [];
  }
}
