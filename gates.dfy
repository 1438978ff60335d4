/**
 * The `prepare_*` functions of backend/agency.py. Before each backend run, every tool's
 * prepare function decides whether the tool is offered to the agent (`Ok(true)`, the
 * tool definition is returned) or hidden (`Ok(false)`, it returns `None`). Each starts by
 * looking the agent up in the registry, which raises `KeyError` for an unknown id.
 */
module Gates {
  import opened Wrappers
  import opened Agents

  /**
   * `prepare_create_new_agent_tool`: the depth and breadth are computed first (the depth can
   * raise), then the capability, the depth limit and the breadth limit are checked in turn.
   */
  function PrepareCreateNewAgent(heap: seq<Agent>, agents: map<string, nat>, agentId: string,
                                 maxDepth: int, maxBreadth: int): (r: Result<bool, Raised>)
    requires RegistryInHeap(heap, agents)
    ensures agentId !in agents ==> r == Err(KeyError(agentId))
    ensures agentId in agents ==> (r.Err? <==> Depth(heap, agents, agents[agentId]).Err?)
    ensures r == Ok(true) <==>
      agentId in agents && Depth(heap, agents, agents[agentId]).Ok? &&
      Accessible(heap[agents[agentId]], CreateNewAgentTool) &&
      Depth(heap, agents, agents[agentId]).value < maxDepth &&
      Breadth(heap[agents[agentId]]) < maxBreadth
  {
    if agentId !in agents then Err(KeyError(agentId))
    else
      var a := heap[agents[agentId]];
      match Depth(heap, agents, agents[agentId])
      case Err(e) => Err(e)
      case Ok(depth) =>
        var breadth := Breadth(a);
        if !Accessible(a, CreateNewAgentTool) then Ok(false)
        else if depth >= maxDepth then Ok(false)
        else if breadth >= maxBreadth then Ok(false)
        else Ok(true)
  }

  /**
   * `prepare_message_agent_tool` (with `toolName` "message_agent") and `prepare_call_meeting_tool`
   * (with "call_meeting"): offered when the capability is set and the agent has a child.
   */
  function PrepareNeedsChildren(heap: seq<Agent>, agents: map<string, nat>, agentId: string,
                                toolName: string): (r: Result<bool, Raised>)
    requires RegistryInHeap(heap, agents)
    ensures agentId !in agents <==> r == Err(KeyError(agentId))
    ensures r.Err? ==> agentId !in agents
    ensures r == Ok(true) <==>
      agentId in agents && Accessible(heap[agents[agentId]], toolName) && heap[agents[agentId]].children != []
  {
    if agentId !in agents then Err(KeyError(agentId))
    else
      var a := heap[agents[agentId]];
      if !Accessible(a, toolName) then Ok(false)
      else if a.children == [] then Ok(false)
      else Ok(true)
  }

  /**
   * The gates that check the capability only: `prepare_internal_monologue_tool`, the file tool
   * gates and the terminal tool gates.
   */
  function PrepareAccessible(heap: seq<Agent>, agents: map<string, nat>, agentId: string,
                             toolName: string): (r: Result<bool, Raised>)
    requires RegistryInHeap(heap, agents)
    ensures agentId !in agents <==> r == Err(KeyError(agentId))
    ensures r.Err? ==> agentId !in agents
    ensures r == Ok(true) <==> agentId in agents && Accessible(heap[agents[agentId]], toolName)
  {
    if agentId !in agents then Err(KeyError(agentId))
    else Ok(Accessible(heap[agents[agentId]], toolName))
  }

  /**
   * An agent whose capability map is empty is offered no tool at all. This is what keeps a
   * meeting's participants (whose maps are emptied for the duration) and every agent made by
   * `create_new_agent` (which starts with none) from calling tools.
   */
  lemma EmptyCapabilitiesOfferNothing(heap: seq<Agent>, agents: map<string, nat>, agentId: string,
                                      toolName: string, maxDepth: int, maxBreadth: int)
    requires RegistryInHeap(heap, agents)
    requires agentId in agents && heap[agents[agentId]].accessibleTools == map[]
    ensures PrepareCreateNewAgent(heap, agents, agentId, maxDepth, maxBreadth) != Ok(true)
    ensures PrepareNeedsChildren(heap, agents, agentId, toolName) == Ok(false)
    ensures PrepareAccessible(heap, agents, agentId, toolName) == Ok(false)
  {
  }

  /**
   * The create gate of a child agent whose parent id is registered: it is offered only if the
   * parent's depth plus one is below the limit, and it is hidden (never raises) once the
   * parent's depth is known.
   */
  lemma CreateGateOfChild(heap: seq<Agent>, agents: map<string, nat>, agentId: string, p: string,
                          maxDepth: int, maxBreadth: int)
    requires RegistryInHeap(heap, agents)
    requires agentId in agents && heap[agents[agentId]].parentId == Some(p) && p in agents
    ensures PrepareCreateNewAgent(heap, agents, agentId, maxDepth, maxBreadth).Ok? <==>
      Depth(heap, agents, agents[p]).Ok?
    ensures PrepareCreateNewAgent(heap, agents, agentId, maxDepth, maxBreadth) == Ok(true) ==>
      Depth(heap, agents, agents[p]).value + 1 < maxDepth
  {
    DepthOfChild(heap, agents, agents[agentId], p);
  }
}
