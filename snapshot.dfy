/**
 * The snapshot of backend/agency.py: `Agent.save_state`/`Agency.save_state` project the live
 * agency onto plain records, and the state branch of `Agency.__init__` rebuilds it in two passes:
 * first every agent is loaded and registered (the one under the agency id becomes the main
 * agent), then every agent's parent id is set and its children are linked, skipping child ids
 * that are not registered.
 */
module Snapshots {
  import opened Wrappers
  import opened Text
  import opened Agents

  /** `AgentState`. */
  datatype AgentState = AgentState(
    id: string,
    name: string,
    systemPrompt: string,
    provider: string,
    toolNames: seq<string>,
    accessibleTools: map<string, bool>,
    messageHistory: seq<Message>,
    parentId: Option<string>,
    childIds: seq<string>,
    mcpServerIds: seq<string>)

  /** `AgencyState`. */
  datatype AgencyState = AgencyState(
    agencyId: string,
    agents: seq<AgentState>,
    currentId: int,
    maxDepth: int,
    maxBreadth: int,
    maxAgents: int,
    workspaceId: Option<string>)

  /** `Agent.save_state`: the child ids are the keys of `children`, in order. */
  function SaveAgent(a: Agent): AgentState {
    AgentState(a.id, a.name, a.systemPrompt, a.provider, a.tools, a.accessibleTools, a.history,
               a.parentId, LinkIds(a.children), a.mcpServerIds)
  }

  /** The agents of the registry in its order, saved. */
  function SavedAgents(reg: Registry): (ss: seq<AgentState>)
    requires forall k :: k in reg.order ==> k in reg.agents && reg.agents[k] < |reg.heap|
    ensures |ss| == |reg.order|
  {
    seq(|reg.order|, i requires 0 <= i < |reg.order| => SaveAgent(reg.heap[reg.agents[reg.order[i]]]))
  }

  /** `Agency.save_state` of an agency whose main agent is object `mainObj`. */
  function Snapshot(reg: Registry, mainObj: nat, currentId: int, maxDepth: int, maxBreadth: int, maxAgents: int,
                    workspaceId: string): AgencyState
    requires Coherent(reg) && mainObj < |reg.heap|
  {
    AgencyState(reg.heap[mainObj].id, SavedAgents(reg), currentId, maxDepth, maxBreadth, maxAgents, Some(workspaceId))
  }

  /** The tool names `load_state` keeps: those of `all_tools_map`, in their saved order. */
  function KnownTools(names: seq<string>): (r: seq<string>)
    ensures forall n :: n in r <==> n in names && n in AllTools
  {
    if names == [] then []
    else (if names[0] in AllTools then [names[0]] else []) + KnownTools(names[1..])
  }

  /** Saved tool names that are all known come back unchanged. */
  lemma {:induction false} KnownToolsKeepsKnown(names: seq<string>)
    requires forall n :: n in names ==> n in AllTools
    ensures KnownTools(names) == names
  {
    if names != [] {
      assert names[0] in names;
      KnownToolsKeepsKnown(names[1..]);
    }
  }

  /** `Agent.load_state`: a new agent object whose history and parent id are then overwritten from the state. */
  function LoadAgent(s: AgentState): Agent {
    NewAgent(s.id, s.name, s.provider, s.systemPrompt, KnownTools(s.toolNames), s.accessibleTools, s.mcpServerIds)
      .(history := s.messageHistory, parentId := s.parentId)
  }

  /** `Agent.load_state` applied to each saved state, in order. */
  function LoadedAgents(states: seq<AgentState>): (objs: seq<Agent>)
    ensures |objs| == |states|
    ensures forall j :: 0 <= j < |states| ==> objs[j].id == states[j].id && objs[j].children == []
  {
    seq(|states|, j requires 0 <= j < |states| => LoadAgent(states[j]))
  }

  /**
   * The first pass: every loaded agent is registered under its id, in order; the last one
   * registered under the agency id is the main agent.
   */
  function LoadAll(reg: Registry, main: Option<nat>, objs: seq<Agent>, agencyId: string)
    : (r: (Registry, Option<nat>))
    ensures |r.0.heap| == |reg.heap| + |objs|
    decreases |objs|
  {
    if objs == [] then (reg, main)
    else
      var main' := if objs[0].id == agencyId then Some(|reg.heap|) else main;
      LoadAll(Insert(reg, objs[0].id, objs[0]), main', objs[1..], agencyId)
  }

  /** The child loop of the second pass: every registered child id is set in `children`, the others are skipped. */
  function Linked(ls: seq<Link>, agents: map<string, nat>, childIds: seq<string>): seq<Link>
    decreases |childIds|
  {
    if childIds == [] then ls
    else
      var c := childIds[0];
      Linked(if c in agents then SetLink(ls, c, agents[c]) else ls, agents, childIds[1..])
  }

  /** The second pass: for each state, in order, the registered agent under its id gets its parent id and its children. */
  function Relinked(heap: seq<Agent>, agents: map<string, nat>, states: seq<AgentState>): (h: seq<Agent>)
    requires RegistryInHeap(heap, agents) && forall s :: s in states ==> s.id in agents
    ensures |h| == |heap|
    decreases |states|
  {
    if states == [] then heap
    else
      var o := agents[states[0].id];
      var a := heap[o].(parentId := states[0].parentId, children := Linked(heap[o].children, agents, states[0].childIds));
      Relinked(heap[o := a], agents, states[1..])
  }

  /** A rebuilt registry and the object of its main agent. */
  datatype Rebuilt = Rebuilt(reg: Registry, main: nat)

  const MainMissing := "Main agent ID not found in loaded state"

  /** The state branch of `Agency.__init__`: `ValueError` when no saved agent carries the agency id. */
  function Rebuild(state: AgencyState): (r: Result<Rebuilt, Raised>)
    ensures r.Err? ==> r.error == ValueError(MainMissing)
    ensures r.Ok? ==> RegistryInHeap(r.value.reg.heap, r.value.reg.agents) && r.value.main < |r.value.reg.heap|
  {
    var loaded := LoadAll(Registry([], map[], []), None, LoadedAgents(state.agents), state.agencyId);
    if loaded.1.None? then Err(ValueError(MainMissing))
    else
      LoadAllInHeap(Registry([], map[], []), None, LoadedAgents(state.agents), state.agencyId);
      Ok(Rebuilt(loaded.0.(heap := Relinked(loaded.0.heap, loaded.0.agents, state.agents)), loaded.1.value))
  }

  /**
   * The workspace id `Agency.__init__` uses: the state's when it is a non-empty string, else the
   * argument when it is, else the freshly generated one.
   */
  function Workspace(saved: Option<string>, argument: Option<string>, generated: string): (w: string)
    ensures saved.Some? && saved.value != "" ==> w == saved.value
    ensures (saved.None? || saved.value == "") && argument.Some? && argument.value != "" ==> w == argument.value
    ensures (saved.None? || saved.value == "") && (argument.None? || argument.value == "") ==> w == generated
  {
    if saved.Some? && saved.value != "" then saved.value
    else if argument.Some? && argument.value != "" then argument.value
    else generated
  }

  // ---------------------------------------------------------------------------
  // Properties of the rebuild for any state

  /** The first pass fails to find a main agent exactly when no saved agent carries the agency id. */
  lemma {:induction false} LoadAllFindsMain(reg: Registry, main: Option<nat>, objs: seq<Agent>, agencyId: string)
    ensures LoadAll(reg, main, objs, agencyId).1.None? <==>
      main.None? && forall j :: 0 <= j < |objs| ==> objs[j].id != agencyId
    decreases |objs|
  {
    if objs != [] {
      var a := objs[0];
      var main' := if a.id == agencyId then Some(|reg.heap|) else main;
      LoadAllFindsMain(Insert(reg, a.id, a), main', objs[1..], agencyId);
      forall j | 1 <= j < |objs|
        ensures objs[j] == objs[1..][j - 1]
      {
      }
    }
  }

  /** Restoring raises `ValueError` exactly when no saved agent carries the agency id. */
  lemma RebuildFailsIffNoMain(state: AgencyState)
    ensures Rebuild(state).Err? <==> forall j :: 0 <= j < |state.agents| ==> state.agents[j].id != state.agencyId
  {
    LoadAllFindsMain(Registry([], map[], []), None, LoadedAgents(state.agents), state.agencyId);
  }

  /**
   * The child loop never links an unregistered id (it is skipped), links every registered one to
   * the registry's object, and keeps the entries already there.
   */
  lemma {:induction false} LinkedSkipsUnknown(ls: seq<Link>, agents: map<string, nat>, childIds: seq<string>)
    ensures forall l :: l in Linked(ls, agents, childIds) ==>
      l in ls || (l.id in childIds && l.id in agents && l.obj == agents[l.id])
    ensures forall c :: c in childIds && c in agents ==> Link(c, agents[c]) in Linked(ls, agents, childIds)
    decreases |childIds|
  {
    if childIds != [] {
      var c := childIds[0];
      var ls' := if c in agents then SetLink(ls, c, agents[c]) else ls;
      LinkedSkipsUnknown(ls', agents, childIds[1..]);
      assert forall d :: d in childIds <==> d == c || d in childIds[1..];
      if c in agents {
        SetLinkContents(ls, c, agents[c]);
        LinkedKeeps(ls', agents, childIds[1..], Link(c, agents[c]));
      }
    }
  }

  /** What `d[id] = obj` holds afterwards: the new entry and the old entries under other keys. */
  lemma {:induction false} SetLinkContents(ls: seq<Link>, id: string, obj: nat)
    ensures Link(id, obj) in SetLink(ls, id, obj)
    ensures forall l :: l in SetLink(ls, id, obj) ==> l in ls || l == Link(id, obj)
    ensures forall l :: l in ls && l.id != id ==> l in SetLink(ls, id, obj)
  {
    if ls != [] && ls[0].id != id {
      SetLinkContents(ls[1..], id, obj);
      assert SetLink(ls, id, obj) == [ls[0]] + SetLink(ls[1..], id, obj);
      assert forall l :: l in ls <==> l == ls[0] || l in ls[1..];
    }
  }

  /** An entry stays through the child loop unless its key is set again to another object. */
  lemma {:induction false} LinkedKeeps(ls: seq<Link>, agents: map<string, nat>, childIds: seq<string>, l: Link)
    requires l in ls && (l.id in agents ==> agents[l.id] == l.obj)
    ensures l in Linked(ls, agents, childIds)
    decreases |childIds|
  {
    if childIds != [] {
      var c := childIds[0];
      if c in agents {
        SetLinkContents(ls, c, agents[c]);
        LinkedKeeps(SetLink(ls, c, agents[c]), agents, childIds[1..], l);
      } else {
        LinkedKeeps(ls, agents, childIds[1..], l);
      }
    }
  }

  /** The first pass keeps a registry coherent: every loaded object starts without children. */
  lemma {:induction false} LoadAllCoherent(reg: Registry, main: Option<nat>, objs: seq<Agent>, agencyId: string)
    requires Coherent(reg)
    requires forall j :: 0 <= j < |objs| ==> objs[j].children == []
    ensures Coherent(LoadAll(reg, main, objs, agencyId).0)
    decreases |objs|
  {
    if objs != [] {
      var a := objs[0];
      assert forall j :: 0 <= j < |objs[1..]| ==> objs[1..][j] == objs[j + 1];
      var main' := if a.id == agencyId then Some(|reg.heap|) else main;
      InsertCoherent(reg, a.id, a);
      LoadAllCoherent(Insert(reg, a.id, a), main', objs[1..], agencyId);
    }
  }

  /** The child loop keeps a dict coherent: it only sets registered ids to their registered objects. */
  lemma {:induction false} LinkedCoherent(heap: seq<Agent>, agents: map<string, nat>, ls: seq<Link>, childIds: seq<string>)
    requires LinksCoherent(heap, ls)
    requires forall k :: k in agents ==> agents[k] < |heap| && heap[agents[k]].id == k
    ensures LinksCoherent(heap, Linked(ls, agents, childIds))
    decreases |childIds|
  {
    if childIds != [] {
      var c := childIds[0];
      if c in agents {
        SetLinkCoherent(heap, ls, c, agents[c]);
        LinkedCoherent(heap, agents, SetLink(ls, c, agents[c]), childIds[1..]);
      } else {
        LinkedCoherent(heap, agents, ls, childIds[1..]);
      }
    }
  }

  /** The second pass keeps a registry coherent. */
  lemma {:induction false} RelinkedCoherent(reg: Registry, states: seq<AgentState>)
    requires Coherent(reg) && forall s :: s in states ==> s.id in reg.agents
    ensures Coherent(reg.(heap := Relinked(reg.heap, reg.agents, states)))
    decreases |states|
  {
    if states != [] {
      var o := reg.agents[states[0].id];
      var a := reg.heap[o].(parentId := states[0].parentId, children := Linked(reg.heap[o].children, reg.agents, states[0].childIds));
      assert LinksCoherent(reg.heap, reg.heap[o].children);
      LinkedCoherent(reg.heap, reg.agents, reg.heap[o].children, states[0].childIds);
      ReplaceAgentCoherent(reg, o, a);
      assert forall s :: s in states[1..] ==> s in states;
      RelinkedCoherent(reg.(heap := reg.heap[o := a]), states[1..]);
    }
  }

  /** Whatever the state, a successful restore yields a coherent registry. */
  lemma RebuildCoherent(state: AgencyState)
    requires Rebuild(state).Ok?
    ensures Coherent(Rebuild(state).value.reg)
  {
    var empty := Registry([], map[], []);
    LoadAllCoherent(empty, None, LoadedAgents(state.agents), state.agencyId);
    LoadAllInHeap(empty, None, LoadedAgents(state.agents), state.agencyId);
    var loaded := LoadAll(empty, None, LoadedAgents(state.agents), state.agencyId).0;
    RelinkedCoherent(loaded, state.agents);
  }

  // ---------------------------------------------------------------------------
  // Restoring a snapshot

  /** The entries the child loop adds to an empty dict: the registered child ids, in order. */
  function Registered(childIds: seq<string>, agents: map<string, nat>): seq<Link>
    decreases |childIds|
  {
    if childIds == [] then [] else Entry(childIds[0], agents) + Registered(childIds[1..], agents)
  }

  /** The entry the child loop adds for a child id not yet in the dict: none when it is unregistered. */
  function Entry(c: string, agents: map<string, nat>): seq<Link> {
    if c in agents then [Link(c, agents[c])] else []
  }

  /** With every child id registered, the rebuilt dict has exactly the saved keys, in order. */
  lemma {:induction false} RegisteredIds(childIds: seq<string>, agents: map<string, nat>)
    requires forall c :: c in childIds ==> c in agents
    ensures LinkIds(Registered(childIds, agents)) == childIds
    ensures forall l :: l in Registered(childIds, agents) ==> l.obj == agents[l.id]
    decreases |childIds|
  {
    if childIds != [] {
      assert childIds[0] in childIds;
      RegisteredIds(childIds[1..], agents);
      var rest := Registered(childIds[1..], agents);
      assert Registered(childIds, agents) == [Link(childIds[0], agents[childIds[0]])] + rest;
      assert LinkIds([Link(childIds[0], agents[childIds[0]])] + rest) == [childIds[0]] + LinkIds(rest);
    }
  }

  /** Keys appearing once each: setting them in turn into a dict without them appends them. */
  lemma {:induction false} LinkedFresh(ls: seq<Link>, agents: map<string, nat>, childIds: seq<string>)
    requires NoDuplicates(childIds)
    requires forall c :: c in childIds ==> !HasLink(ls, c)
    ensures Linked(ls, agents, childIds) == ls + Registered(childIds, agents)
    decreases |childIds|
  {
    if childIds != [] {
      var ls' := ls + Entry(childIds[0], agents);
      LinkedFreshStep(ls, agents, childIds);
      LinkedFresh(ls', agents, childIds[1..]);
      assert Registered(childIds, agents) == Entry(childIds[0], agents) + Registered(childIds[1..], agents);
      assert Linked(ls, agents, childIds) == ls' + Registered(childIds[1..], agents);
      SeqAssoc(ls, Entry(childIds[0], agents), Registered(childIds[1..], agents));
    }
  }

  lemma SeqAssoc<T>(a: seq<T>, b: seq<T>, c: seq<T>)
    ensures (a + b) + c == a + (b + c)
  {
  }

  /** One turn of the child loop over a fresh id appends its entry, and the rest stay fresh. */
  lemma LinkedFreshStep(ls: seq<Link>, agents: map<string, nat>, childIds: seq<string>)
    requires NoDuplicates(childIds) && childIds != []
    requires forall c :: c in childIds ==> !HasLink(ls, c)
    ensures Linked(ls, agents, childIds) == Linked(ls + Entry(childIds[0], agents), agents, childIds[1..])
    ensures NoDuplicates(childIds[1..])
    ensures forall d :: d in childIds[1..] ==> !HasLink(ls + Entry(childIds[0], agents), d)
  {
    var c := childIds[0];
    assert c in childIds;
    if c in agents {
      assert SetLink(ls, c, agents[c]) == ls + Entry(c, agents);
    } else {
      assert ls + Entry(c, agents) == ls;
    }
    NoDuplicatesTail(childIds);
    forall d | d in childIds[1..]
      ensures !HasLink(ls + Entry(c, agents), d)
    {
      assert d in childIds;
      HasLinkAppended(ls, Entry(c, agents), d);
    }
  }

  lemma NoDuplicatesTail(s: seq<string>)
    requires NoDuplicates(s) && s != []
    ensures NoDuplicates(s[1..]) && s[0] !in s[1..]
  {
    forall i, j | 0 <= i < j < |s[1..]|
      ensures s[1..][i] != s[1..][j]
    {
      assert s[1..][i] == s[i + 1] && s[1..][j] == s[j + 1];
    }
  }

  lemma HasLinkAppended(ls: seq<Link>, extra: seq<Link>, id: string)
    requires !HasLink(ls, id) && forall l :: l in extra ==> l.id != id
    ensures !HasLink(ls + extra, id)
  {
    forall i | 0 <= i < |ls + extra|
      ensures (ls + extra)[i].id != id
    {
      if i >= |ls| {
        assert (ls + extra)[i] == extra[i - |ls|];
      }
    }
  }

  /** The ids of a list of agents. */
  function Ids(objs: seq<Agent>): (ids: seq<string>)
    ensures |ids| == |objs|
  {
    seq(|objs|, j requires 0 <= j < |objs| => objs[j].id)
  }

  lemma IdsTail(objs: seq<Agent>)
    requires objs != []
    ensures Ids(objs) == [objs[0].id] + Ids(objs[1..])
  {
  }

  /** The first pass registers every loaded agent, and every registered id names an object. */
  lemma {:induction false} LoadAllInHeap(reg: Registry, main: Option<nat>, objs: seq<Agent>, agencyId: string)
    requires RegistryInHeap(reg.heap, reg.agents) && (main.Some? ==> main.value < |reg.heap|)
    ensures var r := LoadAll(reg, main, objs, agencyId);
      && RegistryInHeap(r.0.heap, r.0.agents)
      && (r.1.Some? ==> r.1.value < |r.0.heap|)
      && forall a :: a in objs ==> a.id in r.0.agents
    decreases |objs|
  {
    if objs != [] {
      var a := objs[0];
      var main' := if a.id == agencyId then Some(|reg.heap|) else main;
      var reg' := Insert(reg, a.id, a);
      LoadAllInHeap(reg', main', objs[1..], agencyId);
      forall b | b in objs
        ensures b.id in LoadAll(reg, main, objs, agencyId).0.agents
      {
        if b != a {
          assert b in objs[1..];
        } else {
          LoadAllKeys(reg', main', objs[1..], agencyId, a.id);
        }
      }
    }
  }

  /** Distinct ids stay distinct without the first agent, whose id the rest do not carry. */
  lemma DistinctTail(objs: seq<Agent>)
    requires NoDuplicates(Ids(objs)) && objs != []
    ensures NoDuplicates(Ids(objs[1..])) && objs[0].id !in Ids(objs[1..])
  {
    IdsTail(objs);
    NoDuplicatesTail(Ids(objs));
    assert Ids(objs)[1..] == Ids(objs[1..]);
  }

  /** After the first pass an id is registered exactly when it was before or some state carries it; others keep their object. */
  lemma {:induction false} LoadAllKeys(reg: Registry, main: Option<nat>, objs: seq<Agent>, agencyId: string, k: string)
    ensures k in LoadAll(reg, main, objs, agencyId).0.agents <==> k in reg.agents || k in Ids(objs)
    ensures k !in Ids(objs) && k in reg.agents ==> LoadAll(reg, main, objs, agencyId).0.agents[k] == reg.agents[k]
    decreases |objs|
  {
    if objs != [] {
      var a := objs[0];
      var main' := if a.id == agencyId then Some(|reg.heap|) else main;
      LoadAllKeys(Insert(reg, a.id, a), main', objs[1..], agencyId, k);
      IdsTail(objs);
    }
  }

  /** With distinct ids, the `j`-th state is registered as the `j`-th new object. */
  lemma {:induction false} LoadAllAgentAt(reg: Registry, main: Option<nat>, objs: seq<Agent>, agencyId: string, j: nat)
    requires NoDuplicates(Ids(objs)) && j < |objs|
    ensures objs[j].id in LoadAll(reg, main, objs, agencyId).0.agents
    ensures LoadAll(reg, main, objs, agencyId).0.agents[objs[j].id] == |reg.heap| + j
    decreases |objs|
  {
    var a := objs[0];
    var main' := if a.id == agencyId then Some(|reg.heap|) else main;
    var reg' := Insert(reg, a.id, a);
    assert LoadAll(reg, main, objs, agencyId).0.agents == LoadAll(reg', main', objs[1..], agencyId).0.agents;
    DistinctTail(objs);
    if j == 0 {
      LoadAllKeys(reg', main', objs[1..], agencyId, objs[0].id);
    } else {
      assert objs[1..][j - 1] == objs[j];
      LoadAllAgentAt(reg', main', objs[1..], agencyId, j - 1);
    }
  }

  /** The first pass appends the loaded agents to the heap, in order. */
  lemma {:induction false} LoadAllHeap(reg: Registry, main: Option<nat>, objs: seq<Agent>, agencyId: string)
    ensures LoadAll(reg, main, objs, agencyId).0.heap == reg.heap + objs
    decreases |objs|
  {
    if objs == [] {
      assert reg.heap + objs == reg.heap;
    } else {
      var a := objs[0];
      var main' := if a.id == agencyId then Some(|reg.heap|) else main;
      LoadAllHeap(Insert(reg, a.id, a), main', objs[1..], agencyId);
      SeqAssoc(reg.heap, [a], objs[1..]);
      assert [a] + objs[1..] == objs;
    }
  }

  /** With distinct, new ids, the first pass appends them to the order. */
  lemma {:induction false} LoadAllOrder(reg: Registry, main: Option<nat>, objs: seq<Agent>, agencyId: string)
    requires NoDuplicates(Ids(objs)) && forall j :: 0 <= j < |objs| ==> objs[j].id !in reg.agents
    ensures LoadAll(reg, main, objs, agencyId).0.order == reg.order + Ids(objs)
    decreases |objs|
  {
    if objs != [] {
      var a := objs[0];
      var main' := if a.id == agencyId then Some(|reg.heap|) else main;
      var reg' := Insert(reg, a.id, a);
      DistinctTail(objs);
      assert a.id !in reg.agents;
      forall j | 0 <= j < |objs[1..]|
        ensures objs[1..][j].id !in reg'.agents
      {
        assert objs[1..][j] == objs[j + 1];
        assert Ids(objs[1..])[j] == objs[1..][j].id;
      }
      LoadAllOrder(reg', main', objs[1..], agencyId);
      IdsTail(objs);
      SeqAssoc(reg.order, [a.id], Ids(objs[1..]));
    }
  }

  /** With distinct ids, the main agent is the object loaded from the state carrying the agency id. */
  lemma {:induction false} LoadAllMainAt(reg: Registry, main: Option<nat>, objs: seq<Agent>, agencyId: string, j: nat)
    requires NoDuplicates(Ids(objs)) && j < |objs| && objs[j].id == agencyId
    ensures LoadAll(reg, main, objs, agencyId).1 == Some(|reg.heap| + j)
    decreases |objs|
  {
    var a := objs[0];
    var main' := if a.id == agencyId then Some(|reg.heap|) else main;
    var reg' := Insert(reg, a.id, a);
    assert LoadAll(reg, main, objs, agencyId).1 == LoadAll(reg', main', objs[1..], agencyId).1;
    DistinctTail(objs);
    if j == 0 {
      assert main' == Some(|reg.heap|);
      LoadAllNoMain(reg', main', objs[1..], agencyId);
    } else {
      assert |reg'.heap| == |reg.heap| + 1;
      assert objs[1..][j - 1] == objs[j];
      assert objs[j].id in Ids(objs[1..]) by {
        assert Ids(objs[1..])[j - 1] == objs[j].id;
      }
      LoadAllMainAt(reg', main', objs[1..], agencyId, j - 1);
    }
  }

  /** No state carrying the agency id: the main agent found so far stays. */
  lemma {:induction false} LoadAllNoMain(reg: Registry, main: Option<nat>, objs: seq<Agent>, agencyId: string)
    requires agencyId !in Ids(objs)
    ensures LoadAll(reg, main, objs, agencyId).1 == main
    decreases |objs|
  {
    if objs != [] {
      var a := objs[0];
      IdsTail(objs);
      LoadAllNoMain(Insert(reg, a.id, a), main, objs[1..], agencyId);
    }
  }

  /** The rebuild in terms of its first pass `first`. */
  lemma RebuildFrom(state: AgencyState, first: (Registry, Option<nat>))
    requires first == LoadAll(Registry([], map[], []), None, LoadedAgents(state.agents), state.agencyId)
    ensures RegistryInHeap(first.0.heap, first.0.agents) && forall s :: s in state.agents ==> s.id in first.0.agents
    ensures first.1.None? ==> Rebuild(state) == Err(ValueError(MainMissing))
    ensures first.1.Some? ==>
      Rebuild(state) == Ok(Rebuilt(first.0.(heap := Relinked(first.0.heap, first.0.agents, state.agents)), first.1.value))
    ensures first.1.Some? ==>
      var heap := Relinked(first.0.heap, first.0.agents, state.agents);
      && Coherent(first.0.(heap := heap)) && first.1.value < |heap|
      && heap[first.1.value].provider == first.0.heap[first.1.value].provider
  {
    var objs := LoadedAgents(state.agents);
    LoadAllInHeap(Registry([], map[], []), None, objs, state.agencyId);
    forall s | s in state.agents
      ensures s.id in first.0.agents
    {
      var j :| 0 <= j < |state.agents| && state.agents[j] == s;
      assert objs[j] in objs;
    }
    if first.1.Some? {
      RelinkedKeeps(first.0.heap, first.0.agents, state.agents, first.1.value);
      RebuildCoherent(state);
    }
  }

  /** One step of the first pass, from position `i` of `objs`. */
  lemma LoadAllNext(reg: Registry, main: Option<nat>, objs: seq<Agent>, i: nat, agencyId: string)
    requires i < |objs|
    ensures LoadAll(reg, main, objs[i..], agencyId) ==
      LoadAll(Insert(reg, objs[i].id, objs[i]), if objs[i].id == agencyId then Some(|reg.heap|) else main, objs[i + 1..], agencyId)
  {
    assert objs[i..][0] == objs[i] && objs[i..][1..] == objs[i + 1..];
  }

  /** The second pass changes only parent ids and children. */
  lemma {:induction false} RelinkedKeeps(heap: seq<Agent>, agents: map<string, nat>, states: seq<AgentState>, o: nat)
    requires RegistryInHeap(heap, agents) && forall s :: s in states ==> s.id in agents
    requires o < |heap|
    ensures Relinked(heap, agents, states)[o] ==
      heap[o].(parentId := Relinked(heap, agents, states)[o].parentId, children := Relinked(heap, agents, states)[o].children)
    decreases |states|
  {
    if states != [] {
      var p := agents[states[0].id];
      var a := heap[p].(parentId := states[0].parentId, children := Linked(heap[p].children, agents, states[0].childIds));
      assert forall s :: s in states[1..] ==> s in states;
      RelinkedKeeps(heap[p := a], agents, states[1..], o);
    }
  }

  /** The second pass over states whose ids name objects `base`, `base + 1`, ... in turn. */
  lemma {:induction false} RelinkedAt(heap: seq<Agent>, agents: map<string, nat>, states: seq<AgentState>, base: nat, o: nat)
    requires RegistryInHeap(heap, agents) && forall s :: s in states ==> s.id in agents
    requires forall j :: 0 <= j < |states| ==> agents[states[j].id] == base + j
    requires o < |heap|
    ensures Relinked(heap, agents, states)[o] ==
      if base <= o < base + |states|
      then heap[o].(parentId := states[o - base].parentId, children := Linked(heap[o].children, agents, states[o - base].childIds))
      else heap[o]
    decreases |states|
  {
    if states != [] {
      var p := agents[states[0].id];
      assert p == base;
      var a := heap[p].(parentId := states[0].parentId, children := Linked(heap[p].children, agents, states[0].childIds));
      forall j | 0 <= j < |states[1..]|
        ensures agents[states[1..][j].id] == base + 1 + j
      {
        assert states[1..][j] == states[j + 1];
      }
      RelinkedAt(heap[p := a], agents, states[1..], base + 1, o);
      if base + 1 <= o < base + |states| {
        assert states[1..][o - base - 1] == states[o - base];
      }
    }
  }

  /** What `load_state` and the second pass make of a saved agent, given the rebuilt registry. */
  ghost predicate RestoredAs(a: Agent, b: Agent, agents: map<string, nat>) {
    && b.id == a.id && b.name == a.name && b.provider == a.provider && b.systemPrompt == a.systemPrompt
    && b.tools == KnownTools(a.tools) && b.accessibleTools == a.accessibleTools
    && b.history == a.history && b.parentId == a.parentId && b.mcpServerIds == a.mcpServerIds
    && b.children == Registered(LinkIds(a.children), agents)
  }

  /** The first pass over the snapshot of a registry whose main agent is object `mainObj`. */
  function FirstPass(reg: Registry, mainObj: nat): (r: (Registry, Option<nat>))
    requires Coherent(reg) && mainObj < |reg.heap|
    ensures RegistryInHeap(r.0.heap, r.0.agents) && |r.0.heap| == |reg.order|
    ensures forall s :: s in SavedAgents(reg) ==> s.id in r.0.agents
    ensures r.1.Some? ==> r.1.value < |r.0.heap|
  {
    var objs := LoadedAgents(SavedAgents(reg));
    LoadAllInHeap(Registry([], map[], []), None, objs, reg.heap[mainObj].id);
    LoadAll(Registry([], map[], []), None, objs, reg.heap[mainObj].id)
  }

  /** Restoring a snapshot is the second pass over the first pass's registry, or `ValueError` without a main agent. */
  lemma SnapshotRebuild(reg: Registry, mainObj: nat, currentId: int, maxDepth: int, maxBreadth: int, maxAgents: int,
                        workspaceId: string)
    requires Coherent(reg) && mainObj < |reg.heap|
    ensures var p := FirstPass(reg, mainObj);
      Rebuild(Snapshot(reg, mainObj, currentId, maxDepth, maxBreadth, maxAgents, workspaceId)) ==
        if p.1.None? then Err(ValueError(MainMissing))
        else Ok(Rebuilt(p.0.(heap := Relinked(p.0.heap, p.0.agents, SavedAgents(reg))), p.1.value))
  {
  }

  /** The first pass over a snapshot registers the same ids, in the same order, each under its position in the order. */
  lemma FirstPassRegistry(reg: Registry, mainObj: nat)
    requires Coherent(reg) && mainObj < |reg.heap|
    ensures var loaded := FirstPass(reg, mainObj).0;
      && loaded.order == reg.order
      && (forall k :: k in loaded.agents <==> k in reg.agents)
      && (forall i :: 0 <= i < |reg.order| ==> reg.order[i] in loaded.agents && loaded.agents[reg.order[i]] == i)
  {
    var objs := LoadedAgents(SavedAgents(reg));
    SavedIds(reg);
    assert Ids(objs) == reg.order;
    LoadFreshRegistry(objs, reg.heap[mainObj].id);
  }

  /** The `i`-th object of the first pass is the `i`-th saved agent, loaded. */
  lemma FirstPassHeap(reg: Registry, mainObj: nat)
    requires Coherent(reg) && mainObj < |reg.heap|
    ensures forall i :: 0 <= i < |reg.order| ==> FirstPass(reg, mainObj).0.heap[i] == LoadAgent(SavedAgents(reg)[i])
  {
    var objs := LoadedAgents(SavedAgents(reg));
    var p := LoadAll(Registry([], map[], []), None, objs, reg.heap[mainObj].id);
    assert FirstPass(reg, mainObj) == p;
    LoadAllHeap(Registry([], map[], []), None, objs, reg.heap[mainObj].id);
    assert p.0.heap == objs;
  }

  /** The first pass over a snapshot finds a main agent exactly when its id is registered, at its position in the order. */
  lemma FirstPassMain(reg: Registry, mainObj: nat)
    requires Coherent(reg) && mainObj < |reg.heap|
    ensures var main := FirstPass(reg, mainObj).1;
      && (main.Some? <==> reg.heap[mainObj].id in reg.agents)
      && (main.Some? ==> main.value < |reg.order| && reg.order[main.value] == reg.heap[mainObj].id)
  {
    var objs := LoadedAgents(SavedAgents(reg));
    SavedIds(reg);
    assert Ids(objs) == reg.order;
    LoadFreshMain(objs, reg.heap[mainObj].id);
  }

  /** The saved agents of a coherent registry carry its ids, in order. */
  lemma SavedIds(reg: Registry)
    requires Coherent(reg)
    ensures forall j :: 0 <= j < |reg.order| ==> LoadedAgents(SavedAgents(reg))[j].id == reg.order[j]
  {
    forall j | 0 <= j < |reg.order|
      ensures SavedAgents(reg)[j].id == reg.order[j]
    {
      assert reg.order[j] in reg.agents;
    }
  }

  /** The first pass over agents with distinct ids registers exactly their ids, in order, each under its position. */
  lemma LoadFreshRegistry(objs: seq<Agent>, agencyId: string)
    requires NoDuplicates(Ids(objs))
    ensures var r := LoadAll(Registry([], map[], []), None, objs, agencyId).0;
      && r.order == Ids(objs)
      && (forall k :: k in r.agents <==> k in Ids(objs))
      && (forall i :: 0 <= i < |objs| ==> objs[i].id in r.agents && r.agents[objs[i].id] == i)
  {
    var empty := Registry([], map[], []);
    LoadAllOrder(empty, None, objs, agencyId);
    forall k
      ensures k in LoadAll(empty, None, objs, agencyId).0.agents <==> k in Ids(objs)
    {
      LoadAllKeys(empty, None, objs, agencyId, k);
    }
    forall i | 0 <= i < |objs|
      ensures objs[i].id in LoadAll(empty, None, objs, agencyId).0.agents
      ensures LoadAll(empty, None, objs, agencyId).0.agents[objs[i].id] == i
    {
      LoadAllAgentAt(empty, None, objs, agencyId, i);
    }
  }

  /** With distinct ids, the main agent is found exactly when some agent carries the agency id, and it is that agent. */
  lemma LoadFreshMain(objs: seq<Agent>, agencyId: string)
    requires NoDuplicates(Ids(objs))
    ensures var m := LoadAll(Registry([], map[], []), None, objs, agencyId).1;
      && (m.Some? <==> agencyId in Ids(objs))
      && (m.Some? ==> m.value < |objs| && objs[m.value].id == agencyId)
  {
    var empty := Registry([], map[], []);
    if agencyId in Ids(objs) {
      var j :| 0 <= j < |objs| && Ids(objs)[j] == agencyId;
      LoadAllMainAt(empty, None, objs, agencyId, j);
    } else {
      LoadAllNoMain(empty, None, objs, agencyId);
    }
  }

  /**
   * Restoring the snapshot of a coherent registry: `ValueError` exactly when the main agent's id
   * is not registered; otherwise the same ids in the same order, the main agent under its id, and
   * every agent restored field by field.
   */
  lemma RestoreSnapshot(reg: Registry, mainObj: nat, currentId: int, maxDepth: int, maxBreadth: int, maxAgents: int,
                        workspaceId: string)
    requires Coherent(reg) && mainObj < |reg.heap|
    ensures var r := Rebuild(Snapshot(reg, mainObj, currentId, maxDepth, maxBreadth, maxAgents, workspaceId));
      && (r.Err? <==> reg.heap[mainObj].id !in reg.agents)
      && (r.Ok? ==>
           && r.value.reg.order == reg.order
           && (forall k :: k in r.value.reg.agents <==> k in reg.agents)
           && reg.heap[mainObj].id in r.value.reg.agents
           && r.value.main == r.value.reg.agents[reg.heap[mainObj].id])
  {
    SnapshotRebuild(reg, mainObj, currentId, maxDepth, maxBreadth, maxAgents, workspaceId);
    FirstPassRegistry(reg, mainObj);
    FirstPassMain(reg, mainObj);
    var p := FirstPass(reg, mainObj);
    if p.1.Some? {
      assert p.0.agents[reg.order[p.1.value]] == p.1.value;
    }
  }

  /** Every agent of a coherent registry comes back from its snapshot as `RestoredAs` says. */
  lemma RestoreSnapshotAgent(reg: Registry, mainObj: nat, currentId: int, maxDepth: int, maxBreadth: int, maxAgents: int,
                             workspaceId: string, k: string)
    requires Coherent(reg) && mainObj < |reg.heap| && k in reg.agents
    requires Rebuild(Snapshot(reg, mainObj, currentId, maxDepth, maxBreadth, maxAgents, workspaceId)).Ok?
    ensures var r := Rebuild(Snapshot(reg, mainObj, currentId, maxDepth, maxBreadth, maxAgents, workspaceId)).value.reg;
      k in r.agents && RestoredAs(reg.heap[reg.agents[k]], r.heap[r.agents[k]], r.agents)
  {
    SnapshotRebuild(reg, mainObj, currentId, maxDepth, maxBreadth, maxAgents, workspaceId);
    FirstPassRegistry(reg, mainObj);
    FirstPassHeap(reg, mainObj);
    var loaded := FirstPass(reg, mainObj).0;
    var j :| 0 <= j < |reg.order| && reg.order[j] == k;
    assert loaded.agents[k] == j;
    RelinkedSaved(reg, loaded, j);
    var r := Rebuild(Snapshot(reg, mainObj, currentId, maxDepth, maxBreadth, maxAgents, workspaceId)).value.reg;
    assert r == loaded.(heap := Relinked(loaded.heap, loaded.agents, SavedAgents(reg)));
  }

  /** Object `j` after both passes over the snapshot of a coherent registry is its `j`-th agent, restored. */
  lemma RelinkedSaved(reg: Registry, loaded: Registry, j: nat)
    requires Coherent(reg) && j < |reg.order| && |loaded.heap| == |reg.order|
    requires forall i :: 0 <= i < |reg.order| ==> reg.order[i] in loaded.agents && loaded.agents[reg.order[i]] == i
    requires RegistryInHeap(loaded.heap, loaded.agents) && forall s :: s in SavedAgents(reg) ==> s.id in loaded.agents
    requires loaded.heap[j] == LoadAgent(SavedAgents(reg)[j])
    ensures RestoredAs(reg.heap[reg.agents[reg.order[j]]], Relinked(loaded.heap, loaded.agents, SavedAgents(reg))[j], loaded.agents)
  {
    var ss := SavedAgents(reg);
    forall i | 0 <= i < |ss|
      ensures loaded.agents[ss[i].id] == 0 + i
    {
      assert reg.order[i] in reg.agents;
      assert ss[i].id == reg.order[i];
    }
    RelinkedAt(loaded.heap, loaded.agents, ss, 0, j);
    var a := reg.heap[reg.agents[reg.order[j]]];
    assert ss[j] == SaveAgent(a);
    var l := LoadAgent(SaveAgent(a));
    var b := Relinked(loaded.heap, loaded.agents, ss)[j];
    assert b == l.(parentId := a.parentId, children := Linked([], loaded.agents, LinkIds(a.children)));
    assert LinksCoherent(reg.heap, a.children);
    LinkedFresh([], loaded.agents, LinkIds(a.children));
  }

  /** Restoring a snapshot whose child ids are all registered reproduces every agent's child ids, in order. */
  lemma RestoreSnapshotChildren(reg: Registry, mainObj: nat, currentId: int, maxDepth: int, maxBreadth: int,
                                maxAgents: int, workspaceId: string, k: string)
    requires Coherent(reg) && mainObj < |reg.heap| && k in reg.agents
    requires forall c :: c in LinkIds(reg.heap[reg.agents[k]].children) ==> c in reg.agents
    requires Rebuild(Snapshot(reg, mainObj, currentId, maxDepth, maxBreadth, maxAgents, workspaceId)).Ok?
    ensures var r := Rebuild(Snapshot(reg, mainObj, currentId, maxDepth, maxBreadth, maxAgents, workspaceId)).value.reg;
      && k in r.agents
      && LinkIds(r.heap[r.agents[k]].children) == LinkIds(reg.heap[reg.agents[k]].children)
      && forall l :: l in r.heap[r.agents[k]].children ==> l.id in r.agents && l.obj == r.agents[l.id]
  {
    var r := Rebuild(Snapshot(reg, mainObj, currentId, maxDepth, maxBreadth, maxAgents, workspaceId)).value.reg;
    RestoreSnapshot(reg, mainObj, currentId, maxDepth, maxBreadth, maxAgents, workspaceId);
    RestoreSnapshotAgent(reg, mainObj, currentId, maxDepth, maxBreadth, maxAgents, workspaceId, k);
    RegisteredIds(LinkIds(reg.heap[reg.agents[k]].children), r.agents);
  }
}
