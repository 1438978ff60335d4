# aiagency bookkeeping, modelled in Dafny

This project models the bookkeeping at the core of the aiagency repository: the parts that do
not depend on what a language model says. In every operation the model's reply is an input:
either a `Reply` value or a `script` giving the reply to the n-th turn. The project proves
what each operation does to its state.

Four pieces are modelled.

- **The agent tree of backend/agency.py**:
  - the `Agency` with its registry of agents, its id counter and its main agent;
  - the tools that create, remove and message agents;
  - the `prepare_*` gates that decide which tools an agent is offered;
  - `call_meeting`, a bounded round-robin discussion between a temporary clone of the host and the host's children;
  - the MCP server manager's running flags and its readiness polling;
  - the two-pass snapshot and restore (`save_state` and the state branch of `Agency.__init__`).

  Python agents are objects that `children` dicts and `main_agent` refer to, and removing one from the registry does not destroy it. The model keeps that identity. A `heap` of agent records is indexed by object number, the registry maps ids to object numbers, and `children` entries name the object they hold. `Coherent` is the invariant every operation keeps.
- **The terminal sessions of src/ai_agency_v2/terminal.py**:
  - `Terminal` recognises and carries out `cd` and `export` commands;
  - it records, trims and queries its command history;
  - it tracks background process ids and serialises itself;
  - `TerminalManager` is a registry of terminals by id.
- **The council of archive/src/aiagency_v1.py**:
  - `create_council_meeting` and `process_council_message` update the project state in place;
  - `get_next_agent` and `router` pick the next actor by priority.
- **The round-robin meeting of archive/src/ai_agency_v2/meeting.py**:
  - `initialize_meeting`, `format_messages_for_agent`, `agent_turn` and `should_continue`, as pure functions on the meeting state.

Modules, in dependency order:

| module | contents |
|---|---|
| `Wrappers` | `Option`, `Result`, and `Raised`, the Python exceptions raised |
| `Text` | the Python string operations the source relies on |
| `Agents` | agent records, ordered `children` dicts, the registry, and `curr_depth` |
| `Servers` | `MCPServerManager` |
| `Gates` | the `prepare_*` functions |
| `Tools` | the create, remove, message and run operations as functions on the registry |
| `Meetings` | `call_meeting` as functions |
| `MeetingSteps` | the loops of `call_meeting` as methods |
| `MeetingProperties`, `MeetingOutcome` | what a meeting guarantees |
| `Snapshots` | save and restore |
| `Agencies` | the `Agency` class, whose methods are proved to compute the functions above |
| `Terminals` | terminal sessions |
| `Councils` | the council state machine and the router |
| `RoundRobin` | the round-robin meeting |

## Model

| member | source | states |
|---|---|---|
| Agents.SetLink | backend/agency.py:249 | `d[id] = obj` on an ordered dict: a new key is appended; an existing key keeps its position and takes the new object, and every other entry stays |
| Agents.Without | backend/agency.py:292 | the entries left after deleting a key are exactly those with another key |
| Agents.WithoutLength | backend/agency.py:292 | deleting a present key of a dict with unique keys removes exactly one entry |
| Agents.DelLink | backend/agency.py:292 | `del d[id]` raises (None) exactly when the key is absent, and otherwise leaves the other entries |
| Agents.Append | backend/agency.py:1142-1144 | `save_message_history` extends one object's history and keeps the heap size |
| Agents.Insert | backend/agency.py:245 | `agents[id] = a` puts a new object under the id; a new id goes last in the order, and an existing id keeps its place |
| Agents.Remove | backend/agency.py:302 | removing an id from the order keeps exactly the other ids, and keeps the order duplicate-free |
| Agents.RemoveAppended | backend/agency.py:531-532 | removing an id just appended to an order that lacked it gives the order back |
| Agents.Delete | backend/agency.py:302 | `del agents[id]` drops the id from the map and from the order and leaves every object in place |
| Agents.InsertThenDelete | backend/agency.py:531-532 | unregistering an id right after registering it gives back the other ids; a previously absent id leaves the map and order exactly as before |
| Agents.SetLinkCoherent | backend/agency.py:249 | setting a key to an object that carries that id keeps a `children` dict coherent |
| Agents.ReplaceAgentCoherent | backend/agency.py:294-297 | replacing an agent record with one of the same id and a coherent `children` dict keeps the registry coherent |
| Agents.InsertCoherent | backend/agency.py:245 | registering a new object under its own id keeps the registry coherent |
| Agents.DeleteCoherent | backend/agency.py:302 | unregistering an id keeps the registry coherent |
| Agents.DepthOfChild | backend/agency.py:1056 | `curr_depth` of an agent whose parent id is registered succeeds exactly when the parent's does, and is then one more |
| Agents.OrphanDepthZero | backend/agency.py:1056 | an agent without a parent id has depth 0 |
| Gates.PrepareCreateNewAgent | backend/agency.py:259-280 | the create tool is offered exactly when the capability is set, the depth is below `max_depth` and the breadth below `max_breadth`; an unknown agent id or a failing depth lookup raises |
| Gates.PrepareNeedsChildren | backend/agency.py:320-333 | the message tool (and the meeting tool, lines 536-552) is offered exactly when the capability is set and the agent has a child |
| Gates.PrepareAccessible | backend/agency.py:563-579 | internal monologue, file and terminal gates offer the tool exactly when the capability is set |
| Gates.EmptyCapabilitiesOfferNothing | backend/agency.py:238-241 | an agent with an empty capability map, as made by `create_new_agent` and as every meeting child is during a meeting, is offered no tool |
| Gates.CreateGateOfChild | backend/agency.py:259-280 | for a child with a registered parent id, the create tool is offered exactly when the parent's depth plus one is below the limit (and the capability and breadth checks pass) |
| Servers.Added | backend/agency.py:138-140 | `add_server` registers the id and marks it not running; no other flag and no task changes |
| Servers.Started | backend/agency.py:142-161 | `start_server`: False and no change for an unknown id; True and no change when already running; otherwise a task is added, it runs, and True is returned |
| Servers.Stopped | backend/agency.py:163-175 | `stop_server` returns True exactly when the server has a task and is running, and then marks it not running; otherwise nothing changes |
| Servers.AllStopped | backend/agency.py:177-179 | `stop_all_servers`: every server with a task ends not running, and the others keep their flags |
| Servers.Crashed | backend/agency.py:181-194 | the failure path of `_run_server` marks that server not running and nothing else |
| Servers.StartAll | backend/agency.py:1127-1131 | the start-up loop keeps the registered servers and only adds tasks |
| Servers.StartAllEffect | backend/agency.py:1127-1131 | after the start-up loop of `Agent.run`, every listed registered server runs and unlisted ones keep their flags |
| Servers.StartAllKeepsRunning | backend/agency.py:1127-1131 | the start-up loop never stops a running server |
| Servers.OperationsKeepConsistent | backend/agency.py:138-194 | every manager operation keeps the invariant that a running server is registered and has a task |
| Servers.StartIdempotentThenStop | backend/agency.py:142-175 | starting twice is the same as starting once, and one `stop_server` then stops the server |
| Servers.MCPServerManager.constructor | backend/agency.py:133-136 | a manager starts with no servers, flags or tasks |
| Servers.MCPServerManager.AddServer | backend/agency.py:138-140 | the manager's new state is `Added` of the old one |
| Servers.MCPServerManager.StartServer | backend/agency.py:142-161 | the new state and the result are `Started` of the old state |
| Servers.MCPServerManager.StopServer | backend/agency.py:163-175 | the new state and the result are `Stopped` of the old state |
| Servers.MCPServerManager.StopAllServers | backend/agency.py:177-179 | the loop over a snapshot of the task keys yields `AllStopped` of the old state |
| Servers.MCPServerManager.MarkCrashed | backend/agency.py:181-194 | a crash of a server with a task yields `Crashed` of the old state |
| Servers.MCPServerManager.GetRunningServers | backend/agency.py:202-203 | the returned ids are exactly those whose flag is true |
| Servers.MCPServerManager.WaitForServerReady | backend/agency.py:205-228 | an unknown id gives False with no probe; every probe is issued before the timeout; the last probe is the only one that succeeds, exactly on success; a False for a known id means the timeout was reached |
| Servers.ReadyIffSomeProbeInTime | backend/agency.py:205-228 | the wait reports ready exactly when some probe issued before the timeout succeeds, and on success no earlier probe succeeded |
| Tools.Newborn | backend/agency.py:232-241 | the agent the create tool builds has the new id, the default provider, a history holding only its system prompt, no parent id, no children, no capability and no server |
| Tools.CreatedEffect | backend/agency.py:232-250 | creation registers exactly one new object under the new id; only the registered parent's `children` gains an entry, and no other agent changes |
| Tools.CreatedLinkedIffParent | backend/agency.py:246-248 | after creation some `children` dict holds the new object exactly when the parent id is registered |
| Tools.CreatedCoherent | backend/agency.py:232-250 | creation keeps the registry coherent |
| Tools.Detached | backend/agency.py:288-290 | the parent step of removal deletes the agent from the `children` of the agent registered under its parent id, and raises `KeyError` when either key is missing |
| Tools.Orphaned | backend/agency.py:293-296 | the child loop clears the parent id of each registered child, and stops with `KeyError` at the first unregistered one |
| Tools.OrphanedOkIff | backend/agency.py:293-296 | the child loop runs to the end exactly when every listed id is registered |
| Tools.OrphanedStopsAt | backend/agency.py:293-296 | the child loop stops at the first unregistered id, with `KeyError` for it |
| Tools.OrphanedAt | backend/agency.py:293-296 | a completed child loop clears exactly the parent ids of the listed agents and changes nothing else |
| Tools.OrphanedKeeps | backend/agency.py:293-296 | whether or not the child loop completes, it changes parent ids only, and only to None |
| Tools.DetachedAt | backend/agency.py:288-290 | the parent step changes only the parent's `children` |
| Tools.Removed | backend/agency.py:285-303 | an absent id gets "does not exist" and changes nothing; an exception leaves the id registered; a success replies "Removed agent with ID" |
| Tools.RemovedOkIff | backend/agency.py:285-303 | removing a registered id succeeds exactly when the parent step succeeds and every remaining child id is registered |
| Tools.RemovedRegistry | backend/agency.py:285-303 | a successful removal drops exactly that id from the map and the order |
| Tools.RemovedOrphans | backend/agency.py:293-296 | after a successful removal every former child other than the agent itself is still registered, with no parent id |
| Tools.RemovedAt | backend/agency.py:285-303 | the id leaves its parent's `children` only when it had a parent id; no other `children` changes, and only parent ids are cleared |
| Tools.RemovedCoherent | backend/agency.py:285-303 | removal keeps the registry coherent, whether it succeeds or raises part-way |
| Tools.RanEffect | backend/agency.py:1125-1144 | `Agent.run`: the old history is a prefix of the new one, followed by the backend's new messages in order; no other field or agent changes; a failure leaves the history alone; every listed registered server runs |
| Tools.Messaged | backend/agency.py:306-313 | `message_agent_helper`: an unknown id gets "does not exist" and changes nothing; otherwise the agent runs and its reply text is returned |
| Tools.RemovingToolChildStrandsTheLink | backend/agency.py:247 | because the tool never sets the child's `parent_id`, removing the child leaves its entry in the parent's `children`, and removing the parent afterwards raises `KeyError` for the child's id |
| Tools.RemovingNewborn | backend/agency.py:285-303 | removing an agent that the tool just made only unregisters it |
| Meetings.AppendTo | backend/agency.py:470-478 | the broadcast appends the message to exactly the listed objects whose id differs from the speaker's; heap size unchanged |
| Meetings.StripCapabilities | backend/agency.py:370-373 | each child's capability map is saved under its id and emptied |
| Meetings.RestoreCapabilities | backend/agency.py:516-517 | each child's map becomes its saved one, or `{}` when none was saved |
| Meetings.Speak | backend/agency.py:458-503 | one turn advances the turn count by one and adds one log entry; the heap keeps its size |
| Meetings.Discussion | backend/agency.py:449-507 | the nested loops keep the heap size and only lengthen the log |
| Meetings.Turn | backend/agency.py:454-503 | the turn of one participant followed by the rest of the loop keeps the heap size and only lengthens the log |
| Meetings.NextRound | backend/agency.py:505-507 | the bottom check of an outer iteration keeps the heap size and only lengthens the log |
| Meetings.Lines | backend/agency.py:510-513 | one summary line per log entry |
| Meetings.Opening | backend/agency.py:377-432 | the state before the first turn: one log entry for the objective, the turn count at 0, nobody ready |
| Meetings.Session | backend/agency.py:370-507 | the meeting proper keeps the heap size, and its log opens with the objective entry |
| Meetings.Closing | backend/agency.py:515-532 | the clone's id is unregistered and the other ids keep their objects |
| Meetings.Meeting | backend/agency.py:337-534 | a host without children gets "No agents available to meet." and nothing changes; an unregistered host raises `KeyError` |
| MeetingSteps.Broadcast | backend/agency.py:470-478 | the broadcast loop computes `AppendTo` |
| MeetingSteps.StripAll | backend/agency.py:370-373 | the save-and-empty loop computes `StripCapabilities` |
| MeetingSteps.RestoreAll | backend/agency.py:516-517 | the restore loop computes `RestoreCapabilities` |
| MeetingSteps.Open | backend/agency.py:377-432 | the opening statements compute `Opening` |
| MeetingSteps.Close | backend/agency.py:515-532 | the closing statements compute `Closing` |
| MeetingOutcome.StripAt | backend/agency.py:370-373 | a child's map is emptied by the strip loop, and every other field and object stays |
| MeetingOutcome.StripSaved | backend/agency.py:370-373 | after the strip loop each child's original map is saved under its id |
| MeetingOutcome.RestoreAt | backend/agency.py:516-517 | after the restore loop each child holds the map saved under its id |
| MeetingOutcome.OpeningAt | backend/agency.py:370-432 | the opening changes histories and, for children, capability maps; every other agent is untouched |
| MeetingOutcome.PartsWithin | backend/agency.py:375 | the participants are the clone (the last object), then the children |
| MeetingOutcome.SessionAt | backend/agency.py:370-507 | the meeting proper only grows histories and changes only the children's capability maps |
| MeetingOutcome.ClosingAt | backend/agency.py:515-532 | the closing gives each child its saved map and the closing message, and touches nobody else |
| MeetingOutcome.WithClone | backend/agency.py:348-367 | the clone of the host is registered under `host_id + "_temp"` as a new object with the host's history, the prompt appended and no capability |
| MeetingOutcome.MeetingAt | backend/agency.py:337-534 | after a meeting, an old agent differs only by a longer history; an agent other than a child is unchanged; a child's history is its history at the end of the discussion followed by exactly one closing message |
| MeetingOutcome.CloneApart | backend/agency.py:348-375 | the host's children are distinct objects with distinct ids, and none of them is the clone |
| MeetingOutcome.MeetingCleansUp | backend/agency.py:367-532 | after a meeting with a child, the registered ids are the old ones minus `host_id + "_temp"`, which the clone overwrote and the clean-up deletes; when that id was not registered before, the key set and order are as before; the registry stays coherent and the clone remains as an unregistered object |
| MeetingOutcome.MeetingRestores | backend/agency.py:516-528 | after a meeting every old agent differs only by a longer history, so each child has its pre-meeting capability map; agents other than children are unchanged; each child's history is its history at the end of the discussion followed by exactly one closing message |
| MeetingOutcome.SessionLog | backend/agency.py:434-507 | the log is the objective entry plus one entry per turn; the turn count is 0 when `min(max_turns * len(participants), 15)` is not positive, and otherwise below budget plus participants; the loop ends with everybody ready or the budget spent |
| MeetingOutcome.SessionOrder | backend/agency.py:449-485 | log entry `i >= 1` was written by participant `(i - 1) % len(participants)`, the clone first and then the children in dict order, under its name and logging id |
| MeetingProperties.AppendToEffect | backend/agency.py:470-478 | each listed object with another id gets the message appended exactly once, and other objects keep their history |
| MeetingProperties.SpeakEffect | backend/agency.py:458-503 | success: the speaker gets the backend's messages, the others get the broadcast, the log gets the stripped reply, and the speaker is ready exactly when the upper-cased reply carries a ready phrase; failure: an error entry, and the speaker becomes ready |
| MeetingProperties.AppendToKeptAt | backend/agency.py:470-478 | the broadcast changes each agent's history only, by appending |
| MeetingProperties.SpeakKeptAt | backend/agency.py:458-503 | a turn changes each agent's history only, by appending |
| MeetingProperties.SpeakGrown | backend/agency.py:458-503 | a turn grows histories and changes nothing else |
| MeetingProperties.DiscussionKeptAt | backend/agency.py:449-507 | the whole loop changes each agent's history only, by appending |
| MeetingProperties.DiscussionShape | backend/agency.py:449-507 | the loop changes only histories, and only by appending |
| MeetingProperties.DiscussionSaidAt | backend/agency.py:449-485 | each entry the loop logs was written by the participant at its turn's position in the rotation |
| MeetingProperties.NextRoundQuiet | backend/agency.py:505-507 | once everybody is ready, the end of the iteration stops the loop with no further turn |
| MeetingProperties.DiscussionInOrder | backend/agency.py:449-485 | the loop's entries follow the participants in rotation from the current turn on |
| MeetingProperties.DiscussionTurnBound | backend/agency.py:449-507 | a round starts only with turns left, so the loop ends at most `len(participants) - 1` turns past the budget |
| MeetingProperties.DiscussionEnd | backend/agency.py:449-507 | the loop ends only with everybody ready or the turn count at the budget |
| Snapshots.SavedAgents | backend/agency.py:1353 | one saved state per registered id, in registry order, with child ids equal to the `children` keys in order |
| Snapshots.KnownTools | backend/agency.py:1165 | the tools `load_state` keeps are the saved names that are known, in order |
| Snapshots.KnownToolsKeepsKnown | backend/agency.py:1165 | saved tool names that are all known come back unchanged |
| Snapshots.LoadedAgents | backend/agency.py:1162-1179 | each loaded agent carries its state's id, history, parent id, capabilities and servers, with no children |
| Snapshots.LoadAll | backend/agency.py:1227-1232 | the first pass appends one object per state and keeps the main agent inside the heap |
| Snapshots.Relinked | backend/agency.py:1238-1246 | the second pass keeps the heap size |
| Snapshots.Rebuild | backend/agency.py:1218-1246 | a restore that succeeds leaves the main agent as an object of the rebuilt heap |
| Snapshots.Workspace | backend/agency.py:1204-1209 | the workspace id is the state's when it is non-empty, else the argument's when that is non-empty, else the generated one |
| Snapshots.LoadAllFindsMain | backend/agency.py:1227-1235 | the first pass finds no main agent exactly when no saved agent carries the agency id |
| Snapshots.RebuildFailsIffNoMain | backend/agency.py:1234-1235 | restore raises `ValueError` exactly when no saved agent carries the agency id |
| Snapshots.LinkedSkipsUnknown | backend/agency.py:1242-1246 | the child loop never links an unregistered id, links each registered one to the registry's object, and keeps the existing entries |
| Snapshots.LinkedKeeps | backend/agency.py:1242-1246 | an entry survives the child loop unless its key is set again |
| Snapshots.LoadAllCoherent | backend/agency.py:1227-1232 | the first pass keeps a registry coherent |
| Snapshots.LinkedCoherent | backend/agency.py:1242-1246 | the child loop keeps a dict coherent |
| Snapshots.RelinkedCoherent | backend/agency.py:1238-1246 | the second pass keeps a registry coherent |
| Snapshots.RebuildCoherent | backend/agency.py:1218-1246 | every successful restore yields a coherent registry |
| Snapshots.RegisteredIds | backend/agency.py:1242-1246 | with every child id registered, the rebuilt dict has exactly the saved keys, in order |
| Snapshots.LoadAllInHeap | backend/agency.py:1227-1232 | the first pass registers every loaded id, and every registered id names an object |
| Snapshots.LoadAllKeys | backend/agency.py:1227-1232 | after the first pass an id is registered exactly when it was before or some state carries it |
| Snapshots.LoadAllAgentAt | backend/agency.py:1227-1232 | with distinct ids, the `j`-th state becomes the `j`-th new object, registered under its id |
| Snapshots.LoadAllHeap | backend/agency.py:1227-1232 | the first pass appends the loaded agents to the heap, in order |
| Snapshots.LoadAllOrder | backend/agency.py:1227-1232 | with distinct new ids, the first pass appends them to the order |
| Snapshots.LoadAllMainAt | backend/agency.py:1230-1232 | with distinct ids, the main agent is the object loaded from the state carrying the agency id |
| Snapshots.LoadAllNoMain | backend/agency.py:1230-1232 | without a state carrying the agency id, the main agent found so far stays |
| Snapshots.RelinkedKeeps | backend/agency.py:1238-1246 | the second pass changes only parent ids and children |
| Snapshots.FirstPass | backend/agency.py:1227-1232 | the first pass over a snapshot |
| Snapshots.SnapshotRebuild | backend/agency.py:1218-1246 | restoring a snapshot is the second pass over the first pass's registry, or `ValueError` without a main agent |
| Snapshots.FirstPassRegistry | backend/agency.py:1227-1232 | the first pass over a snapshot registers the same ids, in the same order, each under its position |
| Snapshots.FirstPassHeap | backend/agency.py:1227-1232 | the `i`-th object of the first pass is the `i`-th saved agent, loaded |
| Snapshots.FirstPassMain | backend/agency.py:1230-1232 | the first pass finds a main agent exactly when its id is registered, at its position in the order |
| Snapshots.SavedIds | backend/agency.py:1353 | the saved agents of a coherent registry carry its ids, in order |
| Snapshots.LoadFreshRegistry | backend/agency.py:1227-1232 | over agents with distinct ids, the first pass registers exactly their ids, in order |
| Snapshots.LoadFreshMain | backend/agency.py:1230-1232 | with distinct ids, a main agent is found exactly when some agent carries the agency id, and it is that agent |
| Snapshots.RestoreSnapshot | backend/agency.py:1218-1246 | restoring `save_state()` of a coherent registry: `ValueError` exactly when the main agent's id is unregistered; otherwise the same ids in the same order, and the main agent under its id |
| Snapshots.RestoreSnapshotAgent | backend/agency.py:1146-1179 | each agent comes back with its id, name, provider, prompt, capability map, history, servers and parent id |
| Snapshots.RelinkedSaved | backend/agency.py:1238-1246 | object `j` after both passes is the registry's `j`-th agent, restored |
| Snapshots.RestoreSnapshotChildren | backend/agency.py:1242-1246 | when every saved child id is registered, each agent's child ids come back in order |
| Agencies.MainAgent | backend/agency.py:1259-1285 | the fresh main agent has id "0", no parent, no children, no server, and every tool of `all_tools` accessible |
| Agencies.WaitAnswersReadyInTime | backend/agency.py:1329-1331 | the readiness wait of `Agency.run` reports ready exactly when the server is registered and a probe before the 120-tick timeout succeeds |
| Agencies.LaunchedRunsAll | backend/agency.py:1322-1331 | when the server loop of `Agency.run` gets through, every listed server is running |
| Agencies.LaunchedKeepsRunning | backend/agency.py:1322-1331 | the server loop never stops a server |
| Agencies.LaunchedFailsAt | backend/agency.py:1329-1331 | when the server loop raises, it is `RuntimeError` naming one of the listed servers |
| Agencies.Agency.Fresh | backend/agency.py:1192-1289 | a fresh agency: the provider from the environment or the default; main agent "0" as the only registered agent; counter 1, limits 3, 3, 10; the two default servers registered |
| Agencies.Agency.Empty | backend/agency.py:1195-1216 | no agent yet, an empty server manager, the given workspace |
| Agencies.Agency.NextId | backend/agency.py:1341-1344 | returns the counter as a decimal string and increments it, changing nothing else |
| Agencies.Agency.CreateNewAgent | backend/agency.py:232-250 | the registry becomes `Created` with the next id; the reply names the agent and the id; the counter advances; the registry stays coherent |
| Agencies.Agency.RemoveAgent | backend/agency.py:285-303 | the registry and the reply or exception are `Removed` of the old registry, and it stays coherent |
| Agencies.Agency.ClearParents | backend/agency.py:293-296 | the child loop computes `Orphaned` |
| Agencies.Agency.StartServers | backend/agency.py:1127-1131 | the start-up loop computes `StartAll` on the manager |
| Agencies.Agency.RunAgent | backend/agency.py:1125-1144 | `Agent.run` computes `Ran` on the heap and the manager |
| Agencies.Agency.MessageAgent | backend/agency.py:306-313 | `message_agent_helper` computes `Messaged`, and the registry stays coherent |
| Agencies.Agency.SaveState | backend/agency.py:1349-1359 | returns the snapshot of the agency; restoring it fails exactly when the main agent's id is unregistered |
| Agencies.Agency.FromState | backend/agency.py:1192-1246 | the state branch gives `ValueError` exactly when `Rebuild` does; otherwise a fresh agency holding the rebuilt registry, with the saved counter, limits and workspace and an empty server manager |
| Agencies.Agency.LoadState | backend/agency.py:1218-1246 | both passes on an empty registry: `ValueError` exactly when `Rebuild` fails, otherwise the rebuilt registry and main agent |
| Agencies.Agency.Run | backend/agency.py:1320-1334 | the main agent's servers are started and waited for, and the first one not ready raises `RuntimeError`; otherwise the main agent runs as `Ran` says |
| Agencies.Agency.LaunchServers | backend/agency.py:1322-1331 | the server loop computes `Launched` |
| Agencies.Agency.StartAndWait | backend/agency.py:1323-1331 | one server is started, and the result is whether it became ready in time |
| Agencies.Agency.CallMeeting | backend/agency.py:337-534 | `call_meeting` computes `Meetings.Meeting` on the registry and the manager, keeping the registry coherent and the counter and limits |
| Agencies.Agency.Hold | backend/agency.py:348-534 | a meeting of a host with children computes `Held` |
| Agencies.Agency.Sit | backend/agency.py:367-507 | the opening and the turn loop compute `Session` |
| Agencies.Agency.Discuss | backend/agency.py:434-507 | the outer loop from turn 0 with nobody ready computes `Discussion` |
| Agencies.Agency.Round | backend/agency.py:454-503 | one outer iteration computes `NextRound` of its turns |
| Agencies.Agency.SpeakTurn | backend/agency.py:458-503 | one turn computes `Speak` |
| Agencies.Agency.CreateMcpServer | backend/agency.py:1306-1318 | an absent id defaults to "mcp_server_" and the number of servers; an existing id is refused with a reply and no change; otherwise the server is added |
| Agencies.Restore | backend/agency.py:1218-1246 | both passes compute `Rebuild`, and the provider becomes the main agent's |
| Agencies.Register | backend/agency.py:1227-1232 | the first pass loop computes `LoadAll`, and the provider is the main agent's once found |
| Agencies.Relink | backend/agency.py:1238-1246 | the second pass loop computes `Relinked` |
| Terminals.EqualsIsForbidden | src/ai_agency_v2/terminal.py:225 | a command containing "=" always contains a forbidden character, so the second disjunct of `_is_env_var_command` never holds |
| Terminals.IsEnvVarCommand | src/ai_agency_v2/terminal.py:220-226 | a command is an env-var command exactly when its stripped text starts with "export " and contains "=" |
| Terminals.SplitAtFirst | src/ai_agency_v2/terminal.py:237 | `split("=", 1)` fails exactly when there is no "="; otherwise the text is `name + "=" + value` with no "=" in `name` |
| Terminals.SplitAtFirstOf | src/ai_agency_v2/terminal.py:237 | a text with no "=" before the first "=" splits into that text and everything after it |
| Terminals.Unquote | src/ai_agency_v2/terminal.py:239-240 | a value that starts and ends with the same quote loses both; a lone quote character becomes empty |
| Terminals.UnquoteQuoted | src/ai_agency_v2/terminal.py:239-240 | exactly one pair of matching quotes is removed from a quoted value |
| Terminals.UnquoteUnquoted | src/ai_agency_v2/terminal.py:239-240 | a value not wrapped in the same quote is kept as it is |
| Terminals.EnvVarEffect | src/ai_agency_v2/terminal.py:228-258 | the exit code is 0 exactly when an assignment is made, else 1 |
| Terminals.EnvVarEffectAssigns | src/ai_agency_v2/terminal.py:228-258 | `_handle_env_var_command` assigns exactly when the stripped command starts with "export " and contains "=", or contains "=" without that prefix |
| Terminals.EnvVarCommandAssigns | src/ai_agency_v2/terminal.py:93-94 | every command dispatched to the env-var handler makes an assignment |
| Terminals.ExportAssigns | src/ai_agency_v2/terminal.py:233-243 | `export NAME=VALUE` sets the stripped name to the value after the first "=", with one pair of matching quotes removed |
| Terminals.JoinPath | src/ai_agency_v2/terminal.py:284-285 | joining a relative target to the current directory starts with the directory and ends with the target |
| Terminals.Trimmed | src/ai_agency_v2/terminal.py:179-181 | with `max_history >= 1` the history keeps the most recent `min(len, max_history)` entries in order; with 0 it keeps all |
| Terminals.ExitCodeOr | src/ai_agency_v2/terminal.py:160 | `exit_code or -1` is -1 exactly when the process gave no code, 0 or -1 |
| Terminals.Backgrounded | src/ai_agency_v2/terminal.py:97-99 | dropping the trailing " &" and stripping shortens the command by at least two characters |
| Terminals.Terminal.constructor | src/ai_agency_v2/terminal.py:29-56 | the id is the given one when non-empty, else the generated one; the current directory is the base directory; empty history; env vars as given or empty; no processes |
| Terminals.Terminal.ExecuteCommand | src/ai_agency_v2/terminal.py:66-183 | `cd` and env-var commands append exactly one entry with no process id and not background; `cd` moves only to an existing directory; an env-var command makes its assignment with exit code 0; other commands launch a process; with `max_history >= 1` the last entry is the result |
| Terminals.Terminal.Spawn | src/ai_agency_v2/terminal.py:96-183 | a trailing " &" makes the command a background one; the pid joins the processes, and the background set when background; a failed start is recorded with -1 and no trim; otherwise the history is trimmed |
| Terminals.Terminal.HandleEnvVar | src/ai_agency_v2/terminal.py:228-272 | the assignment, if any, is made, and exactly one entry with no process id is appended |
| Terminals.Terminal.HandleCd | src/ai_agency_v2/terminal.py:274-312 | the directory changes exactly when the target is a directory, with exit code 0, else exit code 1; exactly one entry is appended |
| Terminals.Terminal.GetHistory | src/ai_agency_v2/terminal.py:429-441 | no limit or one beyond the length gives the whole history; a limit `1 <= n <= len` gives the last `n` entries; always a suffix |
| Terminals.Terminal.KillProcess | src/ai_agency_v2/terminal.py:334-354 | True exactly for a known id; a running one is stopped; the id leaves the background set |
| Terminals.Terminal.KillAllProcesses | src/ai_agency_v2/terminal.py:356-373 | stops exactly the running processes, background ones only when asked, and returns how many |
| Terminals.Terminal.FromDict | src/ai_agency_v2/terminal.py:465-489 | the loaded terminal has the saved fields and no process handle, with the generated id for an empty one and empty env vars and background ids for missing ones; `to_dict` of data with all of them present gives that data back |
| Terminals.TerminalManager.constructor | src/ai_agency_v2/terminal.py:496-518 | the manager keeps the defaults and starts with no terminal |
| Terminals.TerminalManager.CreateTerminal | src/ai_agency_v2/terminal.py:520-559 | an existing id raises `ValueError`; otherwise exactly one new terminal is registered under its id, falsy settings take the defaults, and the given env vars override the defaults |
| Terminals.TerminalManager.GetTerminal | src/ai_agency_v2/terminal.py:561-571 | a terminal is found exactly when the id is registered, and it carries that id |
| Terminals.TerminalManager.DeleteTerminal | src/ai_agency_v2/terminal.py:598-618 | True exactly when the id was registered, and it is then removed |
| Terminals.TerminalManager.RunCommand | src/ai_agency_v2/terminal.py:573-596 | an unknown id raises `ValueError`; otherwise the terminal registered under the id takes exactly the effect of `execute_command` run in the foreground (`Executed`: the `cd`, env-var and process paths with their history, directory, environment and process sets), and the returned entry is that command's record, last in the history when `max_history >= 1` |
| Councils.CouncilIdsDiffer | archive/src/aiagency_v1.py:254 | councils at different positions get different ids |
| Councils.NewCouncil | archive/src/aiagency_v1.py:254-284 | the new council is "council_N", with the first agent speaking, nobody ready and round 0; its messages are the system prompt, plus "Project requirement" only when the first project message is a user message |
| Councils.FirstWithId | archive/src/aiagency_v1.py:306-311 | the index of the first council with the id, or None exactly when none has it |
| Councils.IndexIn | archive/src/aiagency_v1.py:381 | `list.index`: the first position of the value, or None exactly when it is absent |
| Councils.WithAllAdds | archive/src/aiagency_v1.py:369-374 | the forcing loop keeps the ready list in front, adds every participant and nothing else, and adds no duplicate |
| Councils.Concluded | archive/src/aiagency_v1.py:455-463 | the status becomes completed; unparsable results give "Failed to parse meeting results" and no action items |
| Councils.TurnRecords | archive/src/aiagency_v1.py:359-366 | each turn appends exactly one assistant message named for the speaker and adds one to `round_count` |
| Councils.TurnReady | archive/src/aiagency_v1.py:356-378 | the ready list gains no duplicate and only participants or the speaker, keeps its old members in front, gains the speaker on READY, and holds everyone once `round_count >= 5 * len(participants)` |
| Councils.TurnRotates | archive/src/aiagency_v1.py:380-388 | the next speaker is `participants[(index + 1) % n]`, and the status becomes completed exactly when the ready count equals the participant count |
| Councils.TurnRaises | archive/src/aiagency_v1.py:381 | a speaker outside the participants raises `ValueError` from `index`, after the reply was recorded |
| Councils.TurnKeepsWellFormed | archive/src/aiagency_v1.py:356-388 | a turn keeps the ready list duplicate-free and within the participants, and the speaker a participant |
| Councils.ForcedTurnCompletes | archive/src/aiagency_v1.py:369-388 | with distinct participants, the turn that reaches the round limit completes the council |
| Councils.Project.constructor | archive/src/aiagency_v1.py:70-79 | a project state without councils |
| Councils.Project.CreateCouncilMeeting | archive/src/aiagency_v1.py:238-293 | no agents raises `IndexError` and nothing changes; otherwise the new council is appended and becomes the current one |
| Councils.Project.FindCouncil | archive/src/aiagency_v1.py:306-311 | the search loop finds `FirstWithId` |
| Councils.Project.ProcessCouncilMessage | archive/src/aiagency_v1.py:295-393 | no current council raises `KeyError`; an unknown or completed council leaves everything unchanged; otherwise the council takes one turn; well-formedness is kept, and on well-formed councils the turn never raises |
| Councils.Project.FirstTask | archive/src/aiagency_v1.py:871-878 | the first task with the status, or None exactly when none has it |
| Councils.FirstWithStatus | archive/src/aiagency_v1.py:871-878 | the position of the first task with the status, or None exactly when no task has it |
| Councils.Project.GetNextAgent | archive/src/aiagency_v1.py:846-881 | "council" while the current council is in progress, then "supervisor" while not started or planning, then the assignee of the first in-progress task, else of the first not-started one (unvalidated), else "supervisor" |
| Councils.Project.Router | archive/src/aiagency_v1.py:883-928 | END exactly when completed; otherwise "council" exactly when the council is in progress, then "supervisor" while not started or planning; frontend or backend only while in progress |
| Councils.Project.RouterFollowsNextAgent | archive/src/aiagency_v1.py:846-928 | where `get_next_agent` names frontend or backend, `router` goes to the same node |
| Councils.ForceReady | archive/src/aiagency_v1.py:372-374 | the forcing loop computes `WithAll` |
| Councils.TakeTurn | archive/src/aiagency_v1.py:323-388 | the body of a turn computes `CouncilTurn` |
| Councils.ValidAfterTurn | archive/src/aiagency_v1.py:390-391 | replacing a council by its turn keeps every council numbered and well formed, and the turn does not raise |
| RoundRobin.InitializeMeeting | archive/src/ai_agency_v2/meeting.py:24-42 | exactly one human message from the Facilitator, beginning "Meeting Goal: " and the description; agent index 0; not complete |
| RoundRobin.PyIndex | archive/src/ai_agency_v2/meeting.py:46 | `agents[i]` succeeds exactly for `-n <= i < n`, and otherwise raises `IndexError` |
| RoundRobin.Render | archive/src/ai_agency_v2/meeting.py:52-60 | only human and ai entries are shown |
| RoundRobin.Shown | archive/src/ai_agency_v2/meeting.py:52-60 | the entries kept from the transcript are all human or ai ones |
| RoundRobin.RenderAll | archive/src/ai_agency_v2/meeting.py:52-60 | every entry is rendered, once and in order |
| RoundRobin.TranscriptIsShown | archive/src/ai_agency_v2/meeting.py:52-60 | the rendered transcript is the human and ai entries, in order, each rendered once, with ai entries prefixed by their sender or "Unknown Agent" |
| RoundRobin.FormatMessagesForAgent | archive/src/ai_agency_v2/meeting.py:44-64 | the agent's system message, then the shown transcript, then one turn prompt naming the agent; an index out of range raises |
| RoundRobin.AgentTurn | archive/src/ai_agency_v2/meeting.py:66-101 | a turn fails exactly when the current index is out of range |
| RoundRobin.TurnAppends | archive/src/ai_agency_v2/meeting.py:78-94 | the messages are the old ones plus exactly one ai message from the current agent; the agents and the description are kept; the next index is `(i + 1) mod n` |
| RoundRobin.TurnCompletes | archive/src/ai_agency_v2/meeting.py:87-91 | the meeting is complete exactly when the reply contains "MEETING END" or every ai message among the last `len(agents)` contains "PASS" |
| RoundRobin.AllPassFrom | archive/src/ai_agency_v2/meeting.py:88-91 | the all-PASS test over the suffix from position `w` holds exactly when every ai message from `w` on contains "PASS" |
| RoundRobin.AllPassLast | archive/src/ai_agency_v2/meeting.py:87-91 | the all-PASS test over the last `m` messages holds exactly when every ai message from position `len - m` on contains "PASS" |
| RoundRobin.SilentReplyContinues | archive/src/ai_agency_v2/meeting.py:87-91 | a reply with neither "PASS" nor "MEETING END" never completes the meeting |
| RoundRobin.ShouldContinue | archive/src/ai_agency_v2/meeting.py:103-108 | the meeting ends exactly when it is complete |

## Left out

- Language models: every backend call (`PydanticAgent.run`, the council's chat model, `agent.model.invoke`) is an input of the operation that makes it. `Agent.run` takes a `Reply`, `call_meeting` a `script` of replies by turn number, `process_council_message` the reply text and the parsed extraction, and `agent_turn` the reply text. The prompts built only for those calls (the council's `input_messages` and `extraction_prompt`) are not modelled.
- Messages are modelled only as far as the bookkeeping reads them. A backend's new messages are `Message` values. The meeting's two instruction texts are one `Instructions(forHost)` message, whose text is `Meetings.InstructionsText`.
- MCP server processes, asyncio tasks, sleeps and cancellation are not modelled. Only the manager's flags and task keys are. A crash of a supervising task is the `MarkCrashed` event.
- Tools.Ran: a failed server start inside `Agent.run` only prints a warning in the source, and the model does the same. Whether a real start can fail is not modelled: `start_server` on a registered server always succeeds in the model, as the code does unless `asyncio.create_task` itself raises.
- The readiness wait uses integer ticks for `time.time()`. The k-th probe happens at `k * interval` and `probe(id, k)` is its outcome. `Servers.MCPServerManager.WaitForServerReady` requires a positive interval, because with ticks as the clock a zero interval would never reach the timeout.
- Text.Upper: only the ASCII letters `a`-`z` are upper-cased, where Python's `str.upper()` maps the whole Unicode range, and some characters to several. A reply whose ready phrase is spelled with non-ASCII letters that Python upper-cases to ASCII (for example a dotless `ı` in `meetıng`) marks its speaker ready in the source but not in the model. This affects Meetings.Speak, MeetingProperties.SpeakEffect, the "everybody ready" exit of MeetingOutcome.SessionLog, Councils.TurnReady and Councils.Project.ProcessCouncilMessage.
- Tools.RanEffect: the backend is modelled as making no tool calls during a run. In the source, `PydanticAgent.run` can call the agent's registered tools (`create_new_agent`, `remove_agent`, `message_agent`, `call_meeting`) before `new_messages()` is appended. Those calls change the registry, other agents' `children` and other agents' histories. So a real run interleaves the tool operations, which are modelled separately as Tools.Created, Tools.Removed, Tools.Messaged and Meetings.Meeting, and the claim that no other agent changes holds only for a run that offers no tool. Gates.EmptyCapabilitiesOfferNothing shows this is exact for every child inside a meeting. The same applies to Agencies.Agency.RunAgent, Agencies.Agency.MessageAgent and Agencies.Agency.Run.
- Snapshots.SaveAgent: an agent made by the create tool holds the list `[]` as `accessible_tools` (backend/agency.py:240), and `call_meeting` keeps that list through its copy and restore. The model treats it as the empty capability map. `AgentState` declares `accessible_tools` as `Dict[str, bool]`, so the source's `save_state` would fail pydantic's validation of that dict field for any agency that has such an agent. The model saves `map[]` instead, and Snapshots.RestoreSnapshot's round trip describes the source only for agencies without a tool-created agent.
- Servers.MCPServerManager.GetRunningServers: the running ids are returned as a set. The source returns a list in the insertion order of `_running_servers`, which the model does not track, and nothing in the core reads that order.
- `default_mcp_servers` from `_setup_mcp_servers` is not modelled, because nothing in the core reads it. The two default servers are registered.
- The environment variable `DEFAULT_PROVIDER` is a parameter of `Agency.Fresh`. The workspace uuid is a parameter (`generated`) of `Agency.Fresh` and `Agency.FromState`. The terminal uuid and `datetime.now()` are parameters of the terminal operations.
- File tools, the agency's own `TerminalProcess`/`TerminalManager`, and `save_to_file`/`load_from_file` are not modelled. They are filesystem and subprocess I/O. So is creating the workspace directory.
- Agencies.Agency.FromState: agents are looked up in the registry by id during the second pass, as in the source. A state whose agent list repeats an id is restored with the later object registered. That difference is visible only through the earlier object.
- Snapshots.RestoreSnapshot: restoring reproduces `parent_id`s, histories and capability maps field by field. The child ids come back in order only when every saved child id is registered (Snapshots.RestoreSnapshotChildren). An unregistered child id is skipped, with the warning left out.
- `print` output, logging and `Agency.shutdown` are not modelled.
- Terminal processes are opaque. A launch is a `Launch` value: its pid, whether it started, its output and its exit code. `is_running` and `stop` are a `running` predicate plus the set of ids stopped. The foreground wait loop is not modelled.
- Terminals.Terminal.HandleCd: `os.path.expanduser("~")`, `os.path.normpath` and `os.path.isdir` are the parameters `home`, `normalise` and `isDir`.
- `save_terminal`, `load_terminal`, `load_all_terminals`, `save_all_terminals` and the disk files are not modelled. So are `list_processes`, `get_process_output`, `send_input_to_process`, `get_status`, `show_terminal` and the output listeners.
- Terminals.Terminal.ToDict: the background ids are saved as a set. The source saves `list(...)`, whose order is arbitrary, and `from_dict` turns it back into a set.
- Terminals.Terminal.FromDict: a dictionary missing a required key raises `KeyError` in the source. Here every required field is present by construction, and only `env_vars` and `background_process_ids` are optional.
- Terminals.Terminal.ExecuteCommand: the history is trimmed only on the process path after a successful start, as in the source. `cd` and env-var entries and failed starts are appended without trimming. An `exit_code` of 0 from a finished foreground process is reported as -1 (`exit_code or -1`).
- Terminals.Terminal.KillProcess: the process handle stays in `processes`, as in the source.
- Councils.Project.ProcessCouncilMessage: the source mutates the council dict before `list.index` can raise, so the `ValueError` path first records the reply, the round and the ready list. The model does the same. The state's `council_meetings` and `messages` keys are assumed present.
- Councils.ForcedTurnCompletes needs distinct participants. With a repeated participant the ready list (which has no duplicates) can never reach the participant count, and the council never completes.
- `supervisor_agent`, `frontend_agent`, `backend_agent`, `council_agent`, the LangGraph workflows (including `run_meeting`) and `run_agency` are not modelled. They are model calls and graph wiring.
- RoundRobin.Agent: the agent's `model` is left out, since its only use is the reply, which is an input.
