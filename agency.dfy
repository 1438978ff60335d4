/**
 * The `Agency` object of backend/agency.py: its registry of agents, its main agent, the
 * counter behind `next_id`, the limits, the workspace id and its MCP server manager, and the
 * methods that change them. Every method is proved to compute the function of the registry
 * that the other modules define and reason about.
 */
module Agencies {
  import opened Wrappers
  import opened Text
  import opened Agents
  import opened Servers
  import opened Tools
  import opened Snapshots
  import opened Meetings
  import opened MeetingSteps
  import opened MeetingOutcome

  /** The provider used when `DEFAULT_PROVIDER` is not set. */
  const DefaultProvider := "openai:gpt-4.1-nano"
  const MainAgentId := "0"
  const MainAgentName := "main_agent"
  const PlaywrightServer := "mcp_server_playwright"
  const PythonServer := "mcp_server_python"

  /** `Agency.run` waits up to 120 seconds for each server, probing every 2 seconds. */
  const ReadyTimeout := 120
  const ReadyInterval := 2

  /** The capability map of a fresh main agent: every tool of `all_tools` is accessible. */
  const FullAccess: map<string, bool> :=
    map[CreateNewAgentTool := true, MessageAgentTool := true, CallMeetingTool := true, InternalMonologueTool := true]

  /** The main agent of a fresh agency. */
  function MainAgent(provider: string, systemPrompt: string): (a: Agent)
    ensures a.id == MainAgentId && a.children == [] && a.parentId == None && a.mcpServerIds == []
    ensures forall t :: t in AllTools ==> Accessible(a, t)
  {
    NewAgent(MainAgentId, MainAgentName, provider, systemPrompt, AllTools, FullAccess, [])
  }

  /** `os.environ.get("DEFAULT_PROVIDER", "openai:gpt-4.1-nano")`. */
  function ProviderFrom(env: Option<string>): string {
    if env.Some? then env.value else DefaultProvider
  }

  /** The fields of an agency other than its registry. */
  datatype Config = Config(
    mainObj: nat,
    defaultProvider: string,
    currentId: int,
    maxDepth: int,
    maxBreadth: int,
    maxAgents: int,
    workspaceId: string)

  function NotReadyMessage(id: string): string {
    "MCP server " + id + " did not become ready in time. Please check logs and try again."
  }

  function ServerExistsReply(id: string): string {
    "Server with ID " + id + " already exists"
  }

  function ServerCreatedReply(id: string): string {
    "Created MCP server with ID: " + id
  }

  /** `wait_for_server_ready` succeeds for `id`: it is registered and a probe within the timeout succeeds. */
  ghost predicate ReadyInTime(t: ServerTable, id: string, probe: (string, nat) -> bool) {
    id in t.registered && exists k: nat :: k * ReadyInterval < ReadyTimeout && probe(id, k)
  }

  /** A readiness wait on `probeOf`, the probes of server `id`, answers `ReadyInTime`. */
  lemma WaitAnswersReadyInTime(t: ServerTable, id: string, probe: (string, nat) -> bool, probeOf: nat -> bool,
                               ready: bool, probes: nat)
    requires forall k: nat :: probeOf(k) == probe(id, k)
    requires id !in t.registered ==> !ready
    requires forall k :: 0 <= k < probes ==> k * ReadyInterval < ReadyTimeout
    requires forall k :: 0 <= k < probes ==> (probeOf(k) <==> ready && k == probes - 1)
    requires ready ==> probes >= 1
    requires id in t.registered && !ready ==> probes * ReadyInterval >= ReadyTimeout
    ensures ready <==> ReadyInTime(t, id, probe)
  {
    if id in t.registered {
      ReadyIffSomeProbeInTime(ReadyTimeout, ReadyInterval, probeOf, ready, probes);
      if ready {
        var k: nat :| k * ReadyInterval < ReadyTimeout && probeOf(k);
        assert probe(id, k);
      }
    }
  }

  /**
   * The server loop of `Agency.run`: every listed server that is not running is started and
   * waited for; the first one that does not become ready raises `RuntimeError`.
   */
  ghost function Launched(t: ServerTable, ids: seq<string>, probe: (string, nat) -> bool): (r: (ServerTable, Option<Raised>))
    decreases |ids|
  {
    if ids == [] then (t, None)
    else if Running(t, ids[0]) then Launched(t, ids[1..], probe)
    else
      var t' := Started(t, ids[0]).0;
      if ReadyInTime(t', ids[0], probe) then Launched(t', ids[1..], probe)
      else (t', Some(RuntimeError(NotReadyMessage(ids[0]))))
  }

  /** When the server loop gets through, every listed server is running. */
  lemma {:induction false} LaunchedRunsAll(t: ServerTable, ids: seq<string>, probe: (string, nat) -> bool)
    requires Launched(t, ids, probe).1.None?
    ensures forall k :: 0 <= k < |ids| ==> Running(Launched(t, ids, probe).0, ids[k])
    decreases |ids|
  {
    if ids != [] {
      var t' := if Running(t, ids[0]) then t else Started(t, ids[0]).0;
      assert Launched(t, ids, probe) == Launched(t', ids[1..], probe);
      LaunchedRunsAll(t', ids[1..], probe);
      LaunchedKeepsRunning(t', ids[1..], probe, ids[0]);
      forall k | 0 <= k < |ids|
        ensures Running(Launched(t, ids, probe).0, ids[k])
      {
        if k > 0 {
          assert ids[k] == ids[1..][k - 1];
        }
      }
    }
  }

  /** The server loop never stops a server. */
  lemma {:induction false} LaunchedKeepsRunning(t: ServerTable, ids: seq<string>, probe: (string, nat) -> bool, id: string)
    requires Running(t, id)
    ensures Running(Launched(t, ids, probe).0, id)
    decreases |ids|
  {
    if ids != [] && !Running(t, ids[0]) {
      var t' := Started(t, ids[0]).0;
      LaunchedKeepsRunning(t', ids[1..], probe, id);
    } else if ids != [] {
      LaunchedKeepsRunning(t, ids[1..], probe, id);
    }
  }

  /** When the server loop raises, it names one of the listed servers. */
  lemma {:induction false} LaunchedFailsAt(t: ServerTable, ids: seq<string>, probe: (string, nat) -> bool)
    requires Launched(t, ids, probe).1.Some?
    ensures exists k :: 0 <= k < |ids| && Launched(t, ids, probe).1 == Some(RuntimeError(NotReadyMessage(ids[k])))
    decreases |ids|
  {
    var t' := if Running(t, ids[0]) then t else Started(t, ids[0]).0;
    if !Running(t, ids[0]) && !ReadyInTime(t', ids[0], probe) {
      assert Launched(t, ids, probe).1 == Some(RuntimeError(NotReadyMessage(ids[0])));
    } else {
      assert Launched(t, ids, probe) == Launched(t', ids[1..], probe);
      LaunchedFailsAt(t', ids[1..], probe);
      var k :| 0 <= k < |ids[1..]| && Launched(t', ids[1..], probe).1 == Some(RuntimeError(NotReadyMessage(ids[1..][k])));
      assert ids[1..][k] == ids[k + 1];
    }
  }

  class Agency {
    /** `agency.agents` together with the agent objects. */
    var reg: Registry
    /** `main_agent`: an object, which stays in place even when its id is unregistered. */
    var mainObj: nat
    var defaultProvider: string
    var currentId: int
    var maxDepth: int
    var maxBreadth: int
    var maxAgents: int
    var workspaceId: string
    const manager: MCPServerManager

    /** The registry is coherent and the main agent is an object of it. */
    ghost predicate Valid()
      reads this
    {
      Coherent(reg) && mainObj < |reg.heap|
    }

    ghost function Settings(): Config
      reads this
    {
      Config(mainObj, defaultProvider, currentId, maxDepth, maxBreadth, maxAgents, workspaceId)
    }

    /**
     * The fresh branch of `Agency.__init__`: `env` is the `DEFAULT_PROVIDER` variable, `generated`
     * the uuid-based workspace id used when no workspace id is passed. The two default servers are
     * registered and the main agent "0" gets every tool.
     */
    constructor Fresh(env: Option<string>, systemPrompt: string, workspaceArg: Option<string>, generated: string)
      ensures Valid() && fresh(manager)
      ensures reg == Registry([MainAgent(ProviderFrom(env), systemPrompt)], map[MainAgentId := 0], [MainAgentId])
      ensures Settings() == Config(0, ProviderFrom(env), 1, 3, 3, 10, Workspace(None, workspaceArg, generated))
      ensures manager.Table() == Added(Added(ServerTable({}, map[], {}), PlaywrightServer), PythonServer)
    {
      var m := new MCPServerManager();
      workspaceId := Workspace(None, workspaceArg, generated);
      defaultProvider := ProviderFrom(env);
      m.AddServer(PlaywrightServer);
      m.AddServer(PythonServer);
      manager := m;
      reg := Registry([MainAgent(ProviderFrom(env), systemPrompt)], map[MainAgentId := 0], [MainAgentId]);
      mainObj := 0;
      currentId := 1;
      maxDepth, maxBreadth, maxAgents := 3, 3, 10;
    }

    /** The part of `Agency.__init__` both branches share: no agent yet and a new server manager. */
    constructor Empty(workspace: string)
      ensures fresh(manager) && manager.Table() == ServerTable({}, map[], {})
      ensures reg == Registry([], map[], []) && workspaceId == workspace
    {
      reg := Registry([], map[], []);
      workspaceId := workspace;
      manager := new MCPServerManager();
    }

    /** `next_id`: the counter as a decimal string, then the counter is incremented. */
    method NextId() returns (id: string)
      modifies this
      ensures id == IntToString(old(currentId))
      ensures reg == old(reg) && Settings() == old(Settings()).(currentId := old(currentId) + 1)
    {
      id := IntToString(currentId);
      currentId := currentId + 1;
    }

    /** `create_new_agent_helper` called by agent `parentId`. */
    method CreateNewAgent(name: string, systemPrompt: string, parentId: string) returns (reply: string)
      requires Valid()
      modifies this
      ensures Valid()
      ensures reg == Created(old(reg), IntToString(old(currentId)), name, old(defaultProvider), systemPrompt, parentId)
      ensures reply == CreatedReply(name, IntToString(old(currentId)))
      ensures Settings() == old(Settings()).(currentId := old(currentId) + 1)
    {
      ghost var before := reg;
      var newObj := |reg.heap|;
      var newId := NextId();
      var agent := Newborn(newId, name, defaultProvider, systemPrompt);
      reg := Insert(reg, newId, agent);
      if parentId in reg.agents {
        var p := reg.agents[parentId];
        reg := reg.(heap := reg.heap[p := reg.heap[p].(children := SetLink(reg.heap[p].children, newId, newObj))]);
      }
      CreatedCoherent(before, newId, name, defaultProvider, systemPrompt, parentId);
      reply := CreatedReply(name, newId);
    }

    /** `remove_agent_helper`: the exceptions escape with the registry as far as the helper got. */
    method RemoveAgent(id: string) returns (r: Result<string, Raised>)
      requires Valid()
      modifies this
      ensures Valid()
      ensures reg == Removed(old(reg), id).0 && r == Removed(old(reg), id).1
      ensures Settings() == old(Settings())
    {
      RemovedCoherent(reg, id);
      if id !in reg.agents {
        return Ok(AbsentReply(id));
      }
      var o := reg.agents[id];
      if reg.heap[o].parentId.Some? {
        var p := reg.heap[o].parentId.value;
        if p !in reg.agents {
          return Err(KeyError(p));
        }
        var po := reg.agents[p];
        var ls := DelLink(reg.heap[po].children, id);
        if ls.None? {
          return Err(KeyError(id));
        }
        reg := reg.(heap := reg.heap[po := reg.heap[po].(children := ls.value)]);
      }
      assert reg.heap == Detached(old(reg), id).value;
      var err := ClearParents(LinkIds(reg.heap[o].children));
      if err.Some? {
        return Err(err.value);
      }
      reg := Delete(reg, id);
      return Ok(RemovedReply(id));
    }

    /** The loop of `remove_agent_helper` over the removed agent's child ids. */
    method ClearParents(childIds: seq<string>) returns (err: Option<Raised>)
      requires RegistryInHeap(reg.heap, reg.agents)
      modifies this
      ensures reg == old(reg).(heap := Orphaned(old(reg.heap), old(reg.agents), childIds).0)
      ensures err == Orphaned(old(reg.heap), old(reg.agents), childIds).1
      ensures Settings() == old(Settings())
    {
      var i := 0;
      while i < |childIds|
        invariant i <= |childIds| && |reg.heap| == |old(reg.heap)| && RegistryInHeap(reg.heap, reg.agents)
        invariant reg == old(reg).(heap := reg.heap)
        invariant Orphaned(reg.heap, reg.agents, childIds[i..]) == Orphaned(old(reg.heap), old(reg.agents), childIds)
        invariant Settings() == old(Settings())
      {
        if childIds[i] !in reg.agents {
          return Some(KeyError(childIds[i]));
        }
        var c := reg.agents[childIds[i]];
        assert childIds[i..][1..] == childIds[i + 1..];
        reg := reg.(heap := reg.heap[c := reg.heap[c].(parentId := None)]);
        i := i + 1;
      }
      assert childIds[i..] == [];
      return None;
    }

    /** The server loop of `Agent.run`: every listed server that is not running is started. */
    method StartServers(ids: seq<string>)
      modifies manager
      ensures manager.Table() == StartAll(old(manager.Table()), ids)
    {
      var i := 0;
      while i < |ids|
        invariant i <= |ids|
        invariant StartAll(manager.Table(), ids[i..]) == StartAll(old(manager.Table()), ids)
      {
        assert ids[i..][1..] == ids[i + 1..];
        if !manager.IsRunning(ids[i]) {
          var _ := manager.StartServer(ids[i]);
        }
        i := i + 1;
      }
    }

    /** `Agent.run` on object `o`, whose backend gives `reply`. */
    method RunAgent(o: nat, reply: Reply) returns (r: Result<string, Raised>)
      requires o < |reg.heap|
      modifies this, manager
      ensures reg == old(reg).(heap := Ran(old(reg.heap), old(manager.Table()), o, reply).0)
      ensures manager.Table() == Ran(old(reg.heap), old(manager.Table()), o, reply).1
      ensures r == Ran(old(reg.heap), old(manager.Table()), o, reply).2
      ensures Settings() == old(Settings())
    {
      StartServers(reg.heap[o].mcpServerIds);
      match reply
      case Answered(newMessages, data) =>
        reg := reg.(heap := Append(reg.heap, o, newMessages));
        r := Ok(data);
      case Failed(error) =>
        r := Err(BackendError(error));
    }

    /** `message_agent_helper`. */
    method MessageAgent(id: string, reply: Reply) returns (r: Result<string, Raised>)
      requires Valid()
      modifies this, manager
      ensures Valid()
      ensures reg == old(reg).(heap := Messaged(old(reg), old(manager.Table()), id, reply).0)
      ensures manager.Table() == Messaged(old(reg), old(manager.Table()), id, reply).1
      ensures r == Messaged(old(reg), old(manager.Table()), id, reply).2
      ensures Settings() == old(Settings())
    {
      if id !in reg.agents {
        return Ok(AbsentReply(id));
      }
      RanEffect(reg.heap, manager.Table(), reg.agents[id], reply);
      ghost var before := reg;
      r := RunAgent(reg.agents[id], reply);
      ReplaceAgentCoherent(before, before.agents[id], reg.heap[before.agents[id]]);
    }

    /** `Agency.save_state`; restoring the snapshot fails exactly when the main agent's id is unregistered. */
    method SaveState() returns (s: AgencyState)
      requires Valid()
      ensures s == Snapshot(reg, mainObj, currentId, maxDepth, maxBreadth, maxAgents, workspaceId)
      ensures s.agencyId == reg.heap[mainObj].id && |s.agents| == |reg.order|
      ensures Rebuild(s).Err? <==> reg.heap[mainObj].id !in reg.agents
    {
      RestoreSnapshot(reg, mainObj, currentId, maxDepth, maxBreadth, maxAgents, workspaceId);
      s := AgencyState(reg.heap[mainObj].id, SavedAgents(reg), currentId, maxDepth, maxBreadth, maxAgents, Some(workspaceId));
    }

    /**
     * The state branch of `Agency.__init__`, given the workspace id argument and the id it would
     * generate: first every saved agent is loaded and registered, then parents and children are
     * set; `ValueError` when no saved agent carries the agency id. The server manager stays empty.
     */
    static method FromState(state: AgencyState, workspaceArg: Option<string>, generated: string)
      returns (r: Result<Agency, Raised>)
      ensures r.Err? <==> Rebuild(state).Err?
      ensures r.Err? ==> r.error == ValueError(MainMissing)
      ensures r.Ok? ==> Rebuild(state) == Ok(Rebuilt(r.value.reg, r.value.mainObj))
      ensures r.Ok? ==> fresh(r.value) && fresh(r.value.manager) && r.value.Valid()
      ensures r.Ok? ==>
        r.value.Settings() ==
          Config(r.value.mainObj, r.value.reg.heap[r.value.mainObj].provider, state.currentId, state.maxDepth,
                 state.maxBreadth, state.maxAgents, Workspace(state.workspaceId, workspaceArg, generated))
      ensures r.Ok? ==> r.value.manager.Table() == ServerTable({}, map[], {})
    {
      var ag := new Agency.Empty(Workspace(state.workspaceId, workspaceArg, generated));
      var err := ag.LoadState(state);
      if err.Some? {
        return Err(err.value);
      }
      r := Ok(ag);
    }

    /** The state branch of `Agency.__init__` on an agency without agents. */
    method LoadState(state: AgencyState) returns (err: Option<Raised>)
      requires reg == Registry([], map[], [])
      modifies this
      ensures err.Some? <==> Rebuild(state).Err?
      ensures err.Some? ==> err.value == ValueError(MainMissing)
      ensures err.None? ==> Rebuild(state) == Ok(Rebuilt(reg, mainObj)) && Valid()
      ensures err.None? ==>
        Settings() == Config(mainObj, reg.heap[mainObj].provider, state.currentId, state.maxDepth, state.maxBreadth,
                             state.maxAgents, old(workspaceId))
    {
      defaultProvider := "";
      currentId, maxDepth, maxBreadth, maxAgents := state.currentId, state.maxDepth, state.maxBreadth, state.maxAgents;
      var rebuilt, provider := Restore(state, defaultProvider);
      if rebuilt.Err? {
        return Some(rebuilt.error);
      }
      reg, mainObj, defaultProvider := rebuilt.value.reg, rebuilt.value.main, provider;
      err := None;
    }
    /**
     * `Agency.run`: the main agent's servers that are not running are started and waited for
     * (`probe(id, k)` is the outcome of the k-th readiness probe of server `id`), then the main
     * agent runs with the backend's `reply`.
     */
    method Run(reply: Reply, probe: (string, nat) -> bool) returns (r: Result<string, Raised>)
      requires Valid()
      modifies this, manager
      ensures Valid() && Settings() == old(Settings())
      ensures var launch := Launched(old(manager.Table()), old(reg.heap[mainObj].mcpServerIds), probe);
        if launch.1.Some? then reg == old(reg) && manager.Table() == launch.0 && r == Err(launch.1.value)
        else
          var ran := Ran(old(reg.heap), launch.0, mainObj, reply);
          reg == old(reg).(heap := ran.0) && manager.Table() == ran.1 && r == ran.2
    {
      var err := LaunchServers(reg.heap[mainObj].mcpServerIds, probe);
      if err.Some? {
        return Err(err.value);
      }
      RanEffect(reg.heap, manager.Table(), mainObj, reply);
      ghost var before := reg;
      r := RunAgent(mainObj, reply);
      ReplaceAgentCoherent(before, mainObj, reg.heap[mainObj]);
    }

    /**
     * The server loop of `Agent.run`: each server of `ids` that is not running is started and
     * polled until ready; the first that does not become ready in time stops the loop.
     */
    method LaunchServers(ids: seq<string>, probe: (string, nat) -> bool) returns (err: Option<Raised>)
      modifies manager
      ensures (manager.Table(), err) == Launched(old(manager.Table()), ids, probe)
    {
      var i := 0;
      while i < |ids|
        invariant i <= |ids|
        invariant Launched(manager.Table(), ids[i..], probe) == Launched(old(manager.Table()), ids, probe)
      {
        var id := ids[i];
        assert ids[i..][1..] == ids[i + 1..];
        if !manager.IsRunning(id) {
          var ready := StartAndWait(id, probe);
          if !ready {
            return Some(RuntimeError(NotReadyMessage(id)));
          }
        }
        i := i + 1;
      }
      assert ids[i..] == [];
      err := None;
    }

    /** One server of the server loop of `Agent.run`: started, then polled until ready or out of time. */
    method StartAndWait(id: string, probe: (string, nat) -> bool) returns (ready: bool)
      modifies manager
      ensures manager.Table() == Started(old(manager.Table()), id).0
      ensures ready <==> ReadyInTime(manager.Table(), id, probe)
    {
      var _ := manager.StartServer(id);
      var probeOf := (k: nat) => probe(id, k);
      var probes;
      ready, probes := manager.WaitForServerReady(id, ReadyTimeout, ReadyInterval, probeOf);
      WaitAnswersReadyInTime(manager.Table(), id, probe, probeOf, ready, probes);
    }

    /**
     * `call_meeting` called by agent `hostId` (`prompt` is the prompt of the host's run, and
     * `script(n)` the backend's answer to the n-th turn, counting from 0).
     */
    method CallMeeting(hostId: string, prompt: Option<string>, objective: string, maxTurns: int, script: nat -> Reply)
      returns (r: Result<string, Raised>)
      requires Valid()
      modifies this, manager
      ensures var out := Meeting(old(reg), old(manager.Table()), hostId, prompt, objective, maxTurns, script);
        reg == out.reg && manager.Table() == out.servers && r == out.result
      ensures Valid() && Settings() == old(Settings())
    {
      if hostId !in reg.agents {
        return Err(KeyError(hostId));
      }
      var children := LinkObjs(reg.heap[reg.agents[hostId]].children);
      if children == [] {
        return Ok(NoChildrenReply);
      }
      ghost var reg0, servers0 := reg, manager.Table();
      r := Hold(hostId, prompt, objective, maxTurns, script);
      MeetingCleansUp(reg0, servers0, hostId, prompt, objective, maxTurns, script);
    }

    /** The meeting proper of `call_meeting`, once the host is known to have children. */
    method Hold(hostId: string, prompt: Option<string>, objective: string, maxTurns: int, script: nat -> Reply)
      returns (r: Result<string, Raised>)
      requires Coherent(reg) && hostId in reg.agents && reg.heap[reg.agents[hostId]].children != []
      modifies this, manager
      ensures Outcome(reg, manager.Table(), r) ==
        Held(old(reg), old(manager.Table()), hostId, prompt, objective, maxTurns, script)
      ensures Settings() == old(Settings())
    {
      var host := reg.heap[reg.agents[hostId]];
      var children := LinkObjs(host.children);
      var tempId := hostId + "_temp";
      var reg1 := Insert(reg, tempId, TempHost(host, tempId, MeetingPrompt(prompt)));
      assert Within(reg1.heap, children) by {
        assert LinksCoherent(reg.heap, host.children);
      }
      var saved, said, done, turn := Sit(reg1, children, hostId, tempId, objective, maxTurns, script);
      reg := Close(reg1, Talk(reg.heap, manager.Table(), said, done, turn), children, saved, tempId);
      r := Ok(Summary(said));
    }

    /**
     * The session of `call_meeting` in registry `reg1`, whose last object is the clone: the
     * opening, then the turn loop over the clone and the children.
     */
    method Sit(reg1: Registry, children: seq<nat>, hostId: string, tempId: string, objective: string, maxTurns: int,
               script: nat -> Reply)
      returns (saved: map<string, map<string, bool>>, said: seq<LogEntry>, done: seq<string>, turn: nat)
      requires |reg1.heap| > 0 && Within(reg1.heap, children)
      modifies this, manager
      ensures (Talk(reg.heap, manager.Table(), said, done, turn), saved) ==
        Session(reg1, old(manager.Table()), children, hostId, tempId, objective, maxTurns, script)
      ensures reg == reg1.(heap := reg.heap) && Settings() == old(Settings())
    {
      var tempObj := |reg1.heap| - 1;
      var heap6, log;
      heap6, saved, log := Open(reg1, children, tempObj, objective);
      var parts := [tempObj] + children;
      PartsWithin(heap6, children, tempObj);
      reg := reg1.(heap := heap6);
      said, done, turn := Discuss(parts, Min(maxTurns * |parts|, RoundCeiling), hostId, tempId, script, log);
    }

    /**
     * The turn loop of `call_meeting` over `parts`, from an empty ready set at turn 0: at most
     * `maxRounds` outer iterations, each stopping early once everybody is ready.
     */
    method Discuss(parts: seq<nat>, maxRounds: int, hostId: string, tempId: string, script: nat -> Reply,
                   log0: seq<LogEntry>)
      returns (log: seq<LogEntry>, done: seq<string>, turn: nat)
      requires |parts| > 0 && Within(reg.heap, parts)
      modifies this, manager
      ensures Talk(reg.heap, manager.Table(), log, done, turn) ==
        Discussion(Talk(old(reg.heap), old(manager.Table()), log0, [], 0), parts, 0, 0, maxRounds, hostId, tempId, script)
      ensures reg == old(reg).(heap := reg.heap) && Settings() == old(Settings())
    {
      log, done, turn := log0, [], 0;
      ghost var final := Discussion(Talk(reg.heap, manager.Table(), log, done, turn), parts, 0, 0, maxRounds,
                                    hostId, tempId, script);
      var round: nat := 0;
      while round < maxRounds
        invariant Within(reg.heap, parts)
        invariant Discussion(Talk(reg.heap, manager.Table(), log, done, turn), parts, round, 0, maxRounds,
                             hostId, tempId, script) == final
        invariant reg == old(reg).(heap := reg.heap) && Settings() == old(Settings())
        decreases maxRounds - round
      {
        if |done| == |parts| {
          break;
        }
        log, done, turn := Round(parts, round, maxRounds, hostId, tempId, script, log, done, turn);
        if turn >= maxRounds {
          break;
        }
        round := round + 1;
      }
    }

    /**
     * Outer iteration `round` of the turn loop: each participant in turn, until everybody is
     * ready after a reply.
     */
    method Round(parts: seq<nat>, round: nat, maxRounds: int, hostId: string, tempId: string, script: nat -> Reply,
                 log0: seq<LogEntry>, done0: seq<string>, turn0: nat)
      returns (log: seq<LogEntry>, done: seq<string>, turn: nat)
      requires |parts| > 0 && Within(reg.heap, parts) && round < maxRounds && |done0| != |parts|
      modifies this, manager
      ensures |reg.heap| == |old(reg.heap)|
      ensures NextRound(Talk(reg.heap, manager.Table(), log, done, turn), parts, round, maxRounds, hostId, tempId, script) ==
        Discussion(Talk(old(reg.heap), old(manager.Table()), log0, done0, turn0), parts, round, 0, maxRounds,
                   hostId, tempId, script)
      ensures reg == old(reg).(heap := reg.heap) && Settings() == old(Settings())
    {
      log, done, turn := log0, done0, turn0;
      ghost var final := Discussion(Talk(reg.heap, manager.Table(), log, done, turn), parts, round, 0, maxRounds,
                                    hostId, tempId, script);
      var k := 0;
      while k < |parts|
        invariant k <= |parts| && |reg.heap| == |old(reg.heap)| && (k == 0 ==> |done| != |parts|)
        invariant Discussion(Talk(reg.heap, manager.Table(), log, done, turn), parts, round, k, maxRounds,
                             hostId, tempId, script) == final
        invariant reg == old(reg).(heap := reg.heap) && Settings() == old(Settings())
      {
        var said, ready, answered := SpeakTurn(parts, k, hostId, tempId, script, log, done, turn);
        log, done, turn := said, ready, turn + 1;
        if answered && |done| == |parts| {
          return;
        }
        k := k + 1;
      }
    }

    /**
     * The turn of participant `parts[k]` at turn number `turn`: its run, then the broadcast, the
     * log entry and the ready check of a reply, or the log entry of a failure.
     */
    method SpeakTurn(parts: seq<nat>, k: nat, hostId: string, tempId: string, script: nat -> Reply,
                     log: seq<LogEntry>, done: seq<string>, turn: nat)
      returns (said: seq<LogEntry>, ready: seq<string>, answered: bool)
      requires k < |parts| && Within(reg.heap, parts)
      modifies this, manager
      ensures Talk(reg.heap, manager.Table(), said, ready, turn + 1) ==
        Speak(Talk(old(reg.heap), old(manager.Table()), log, done, turn), parts, k, hostId, tempId, script)
      ensures answered <==> script(turn).Answered?
      ensures reg == old(reg).(heap := reg.heap) && Settings() == old(Settings())
    {
      var o := parts[k];
      var a := reg.heap[o];
      var logId := LogId(a, hostId, tempId);
      var result := RunAgent(o, script(turn));
      if result.Ok? {
        var response := Strip(result.value);
        var heard := Broadcast(reg.heap, parts, Some(a.id), Heard(a, logId, response));
        reg := reg.(heap := heard);
        said := log + [LogEntry(a.name, logId, response)];
        ready := if Signals(response) then Mark(done, a.id) else done;
        answered := true;
      } else {
        said := log + [LogEntry(a.name, logId, "Error during response: " + result.error.message)];
        ready := Mark(done, a.id);
        answered := false;
      }
    }

    /** `create_mcp_server`: an absent id defaults to "mcp_server_" and the number of servers. */
    method CreateMcpServer(serverId: Option<string>) returns (reply: string)
      modifies manager
      ensures var id := if serverId.Some? then serverId.value else "mcp_server_" + IntToString(|old(manager.servers)|);
        && (id in old(manager.servers) ==> manager.Table() == old(manager.Table()) && reply == ServerExistsReply(id))
        && (id !in old(manager.servers) ==> manager.Table() == Added(old(manager.Table()), id) && reply == ServerCreatedReply(id))
    {
      var id := if serverId.Some? then serverId.value else "mcp_server_" + IntToString(|manager.servers|);
      if id in manager.servers {
        return ServerExistsReply(id);
      }
      manager.AddServer(id);
      reply := ServerCreatedReply(id);
    }
  }

  /**
   * Both passes of the state branch of `Agency.__init__`: the registry rebuilt from `state`, and
   * the default provider, which is the main agent's.
   */
  method Restore(state: AgencyState, provider: string) returns (r: Result<Rebuilt, Raised>, mainProvider: string)
    ensures r == Rebuild(state)
    ensures r.Ok? ==> Coherent(r.value.reg) && mainProvider == r.value.reg.heap[r.value.main].provider
  {
    var loaded, main;
    loaded, main, mainProvider := Register(Registry([], map[], []), LoadedAgents(state.agents), state.agencyId, provider);
    RebuildFrom(state, (loaded, main));
    if main.None? {
      return Err(ValueError(MainMissing)), mainProvider;
    }
    var heap := Relink(loaded, state.agents);
    r := Ok(Rebuilt(loaded.(heap := heap), main.value));
  }

  /**
   * The first pass of the state branch of `Agency.__init__`, over the agents `Agent.load_state`
   * made of the saved states: each is registered under its id, and the one under the agency id
   * becomes the main agent and gives the default provider (`provider` is the one before the pass).
   */
  method Register(reg: Registry, objs: seq<Agent>, agencyId: string, provider: string)
    returns (loaded: Registry, main: Option<nat>, mainProvider: string)
    ensures loaded == LoadAll(reg, None, objs, agencyId).0
    ensures main == LoadAll(reg, None, objs, agencyId).1
    ensures main.Some? ==> main.value < |loaded.heap| && mainProvider == loaded.heap[main.value].provider
    ensures main.None? ==> mainProvider == provider
  {
    main, loaded, mainProvider := None, reg, provider;
    ghost var target := LoadAll(reg, None, objs, agencyId);
    var i := 0;
    while i < |objs|
      invariant i <= |objs| && |loaded.heap| == |reg.heap| + i
      invariant LoadAll(loaded, main, objs[i..], agencyId) == target
      invariant main.Some? ==> main.value < |loaded.heap| && mainProvider == loaded.heap[main.value].provider
      invariant main.None? ==> mainProvider == provider
    {
      var agent := objs[i];
      LoadAllNext(loaded, main, objs, i, agencyId);
      loaded := Insert(loaded, agent.id, agent);
      if agent.id == agencyId {
        main := Some(|loaded.heap| - 1);
        mainProvider := agent.provider;
      }
      i := i + 1;
    }
    assert objs[i..] == [];
  }

  /** The second pass of the state branch of `Agency.__init__`: parent ids and children are set. */
  method Relink(reg: Registry, states: seq<AgentState>) returns (heap: seq<Agent>)
    requires RegistryInHeap(reg.heap, reg.agents) && forall s :: s in states ==> s.id in reg.agents
    ensures heap == Relinked(reg.heap, reg.agents, states)
  {
    heap := reg.heap;
    var i := 0;
    while i < |states|
      invariant i <= |states| && |heap| == |reg.heap|
      invariant Relinked(heap, reg.agents, states[i..]) == Relinked(reg.heap, reg.agents, states)
    {
      var s := states[i];
      assert s in states;
      var o := reg.agents[s.id];
      var agent := heap[o].(parentId := s.parentId);
      ghost var start := agent;
      var j := 0;
      while j < |s.childIds|
        invariant j <= |s.childIds| && agent == start.(children := agent.children)
        invariant Linked(agent.children, reg.agents, s.childIds[j..]) == Linked(start.children, reg.agents, s.childIds)
      {
        var c := s.childIds[j];
        assert s.childIds[j..][1..] == s.childIds[j + 1..];
        if c in reg.agents {
          agent := agent.(children := SetLink(agent.children, c, reg.agents[c]));
        }
        j := j + 1;
      }
      assert s.childIds[j..] == [];
      assert states[i..][0] == s && states[i..][1..] == states[i + 1..];
      heap := heap[o := agent];
      i := i + 1;
    }
    assert states[i..] == [];
  }
}
