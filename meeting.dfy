/**
 * `call_meeting` of backend/agency.py as a function of the registry, the server table and the
 * backend's replies. A temporary clone of the host speaks first, then the host's children in
 * the order of its `children` dict; every successful reply is broadcast to the other
 * participants; a participant joins the ready set by saying one of the two ready phrases or
 * by failing; the loop stops when everybody is ready or the turn budget is spent.
 *
 * The backend is a script: `script(i)` is the reply to the `i`-th turn (counting from 0).
 */
module Meetings {
  import opened Wrappers
  import opened Text
  import opened Agents
  import opened Servers

  /** The lines of the two instruction texts. */
  const InstructionsHeading := "Meeting Instructions:\n"
  const HostGoesFirst := "- You are the host of this meeting. You will go first. Begin by elaborating on the objective of the meeting.\n"
  const CommonDuties := "- Review the discussion so far\n" + "- Share your thoughts related to the meeting objective\n" + "- Respond to points raised by other participants\n"
  const ChildReady := "- If you have said all you need to contribute, include \"READY_TO_MOVE_ON\" in your response\n"
  const HostReady := "- If you have said all you need to contribute and want to end the meeting, include \"READY_TO_END_MEETING\" in your response\n"
  const ChildInstructions := InstructionsHeading + CommonDuties + ChildReady
  const HostInstructions := InstructionsHeading + HostGoesFirst + CommonDuties + HostReady
  /** The text of an `Instructions` message. */
  function InstructionsText(forHost: bool): string {
    if forHost then HostInstructions else ChildInstructions
  }

  const ClosingMessage := "Meeting has ended. Thank you for your participation."
  const NoChildrenReply := "No agents available to meet."
  /** The flat ceiling on the turn budget. */
  const RoundCeiling := 15

  /** One entry of the discussion log. */
  datatype LogEntry = LogEntry(agentName: string, agentId: string, message: string)

  /**
   * The variables of the meeting loop: the objects, the servers, the log, `agents_done` (kept as
   * a sequence without repetitions, so that its size is the length) and `turn`.
   */
  datatype Talk = Talk(heap: seq<Agent>, servers: ServerTable, log: seq<LogEntry>, done: seq<string>, turn: nat)

  /** What a meeting leaves behind. */
  datatype Outcome = Outcome(reg: Registry, servers: ServerTable, result: Result<string, Raised>)

  predicate Within(heap: seq<Agent>, objs: seq<nat>) {
    forall i :: 0 <= i < |objs| ==> objs[i] < |heap|
  }

  predicate Distinct(objs: seq<nat>) {
    forall i, j :: 0 <= i < j < |objs| ==> objs[i] != objs[j]
  }

  function Min(a: int, b: int): int {
    if a <= b then a else b
  }

  /** `agents_done.add(id)`. */
  function Mark(done: seq<string>, id: string): (r: seq<string>)
  {
    if id in done then done else done + [id]
  }

  /**
   * `for a in objs: if a.id != except: a.message_history.append(msg)`; with `except == None`
   * every listed object gets the message.
   */
  function AppendTo(heap: seq<Agent>, objs: seq<nat>, except: Option<string>, msg: Message): (h: seq<Agent>)
    requires Within(heap, objs)
    ensures |h| == |heap|
    decreases |objs|
  {
    if objs == [] then heap
    else
      var next := if Some(heap[objs[0]].id) != except then Append(heap, objs[0], [msg]) else heap;
      AppendTo(next, objs[1..], except, msg)
  }

  /** Saves each object's capability map under its id and empties it. */
  function StripCapabilities(heap: seq<Agent>, objs: seq<nat>, saved: map<string, map<string, bool>>)
    : (r: (seq<Agent>, map<string, map<string, bool>>))
    requires Within(heap, objs)
    ensures |r.0| == |heap|
    decreases |objs|
  {
    if objs == [] then (heap, saved)
    else
      var a := heap[objs[0]];
      StripCapabilities(heap[objs[0] := a.(accessibleTools := map[])], objs[1..], saved[a.id := a.accessibleTools])
  }

  /** `child.accessible_tools = original_accessible_tools.get(child.id, {})` for each object. */
  function RestoreCapabilities(heap: seq<Agent>, objs: seq<nat>, saved: map<string, map<string, bool>>): (h: seq<Agent>)
    requires Within(heap, objs)
    ensures |h| == |heap|
    decreases |objs|
  {
    if objs == [] then heap
    else
      var a := heap[objs[0]];
      var caps := if a.id in saved then saved[a.id] else map[];
      RestoreCapabilities(heap[objs[0] := a.(accessibleTools := caps)], objs[1..], saved)
  }

  /** The temporary clone of the host, before it is registered. */
  function TempHost(host: Agent, tempId: string, prompt: string): Agent {
    Agent(tempId, host.name + " [Active Host]", host.provider, host.systemPrompt, host.tools, map[],
          host.history + [UserPrompt(prompt)], None, [], [])
  }

  /** The id the log records for a speaker: the host's own id for the clone. */
  function LogId(a: Agent, hostId: string, tempId: string): string {
    if a.id != tempId then a.id else hostId
  }

  /** The reply says the speaker is ready. */
  predicate Signals(response: string) {
    Contains(Upper(response), "READY_TO_END_MEETING") || Contains(Upper(response), "READY_TO_MOVE_ON")
  }

  /** The broadcast of one reply. */
  function Heard(a: Agent, logId: string, response: string): Message {
    UserPrompt("From " + a.name + " (" + logId + "): " + response)
  }

  /**
   * One turn of participant `parts[k]`: its servers are started and its backend is run
   * (`Agent.run`), then the reply is stripped, broadcast, logged and checked for the ready
   * phrases; a failed run is logged as an error and makes the speaker ready.
   */
  function Speak(t: Talk, parts: seq<nat>, k: nat, hostId: string, tempId: string, script: nat -> Reply): (t': Talk)
    requires k < |parts| && Within(t.heap, parts)
    ensures |t'.heap| == |t.heap| && t'.turn == t.turn + 1 && |t'.log| == |t.log| + 1 && t.log <= t'.log
  {
    var o := parts[k];
    var a := t.heap[o];
    var logId := LogId(a, hostId, tempId);
    var servers := StartAll(t.servers, a.mcpServerIds);
    match script(t.turn)
    case Answered(newMessages, data) =>
      var response := Strip(data);
      var spoken := Append(t.heap, o, newMessages);
      var heard := AppendTo(spoken, parts, Some(a.id), Heard(a, logId, response));
      Talk(heard, servers, t.log + [LogEntry(a.name, logId, response)],
           if Signals(response) then Mark(t.done, a.id) else t.done, t.turn + 1)
    case Failed(error) =>
      Talk(t.heap, servers, t.log + [LogEntry(a.name, logId, "Error during response: " + error)],
           Mark(t.done, a.id), t.turn + 1)
  }

  /**
   * The two nested loops of the meeting, from position `k` of outer iteration `r` on. At the top
   * of an iteration (`k == 0`) the loop stops when `range(max_rounds)` is exhausted or everybody
   * is ready; past the last participant it goes to the bottom of the iteration.
   */
  function Discussion(t: Talk, parts: seq<nat>, r: nat, k: nat, maxRounds: int, hostId: string, tempId: string,
                      script: nat -> Reply): (t': Talk)
    requires k <= |parts| && Within(t.heap, parts) && (k == 0 || r < maxRounds)
    ensures |t'.heap| == |t.heap| && t.turn <= t'.turn
    ensures |t'.log| - t'.turn == |t.log| - t.turn && t.log <= t'.log
    decreases maxRounds - r, |parts| - k, 2
  {
    if k == 0 && (r >= maxRounds || |t.done| == |parts|) then t
    else if k == |parts| then NextRound(t, parts, r, maxRounds, hostId, tempId, script)
    else Turn(t, parts, r, k, maxRounds, hostId, tempId, script)
  }

  /**
   * The turn of participant `parts[k]`, then the rest of the loop: a successful turn that
   * completes the ready set ends the inner loop early; a failed turn never does.
   */
  function Turn(t: Talk, parts: seq<nat>, r: nat, k: nat, maxRounds: int, hostId: string, tempId: string,
                script: nat -> Reply): (t': Talk)
    requires k < |parts| && Within(t.heap, parts) && r < maxRounds
    ensures |t'.heap| == |t.heap| && t.turn < t'.turn
    ensures |t'.log| - t'.turn == |t.log| - t.turn && t.log <= t'.log
    decreases maxRounds - r, |parts| - k, 1
  {
    var next := Speak(t, parts, k, hostId, tempId, script);
    if script(t.turn).Answered? && |next.done| == |parts| then NextRound(next, parts, r, maxRounds, hostId, tempId, script)
    else Discussion(next, parts, r, k + 1, maxRounds, hostId, tempId, script)
  }

  /** The bottom of outer iteration `r`: `if turn >= max_rounds: break`, else on to iteration `r + 1`. */
  function NextRound(t: Talk, parts: seq<nat>, r: nat, maxRounds: int, hostId: string, tempId: string,
                     script: nat -> Reply): (t': Talk)
    requires Within(t.heap, parts) && r < maxRounds
    ensures |t'.heap| == |t.heap| && t.turn <= t'.turn
    ensures |t'.log| - t'.turn == |t.log| - t.turn && t.log <= t'.log
    decreases maxRounds - r, 0, 0
  {
    if t.turn >= maxRounds then t else Discussion(t, parts, r + 1, 0, maxRounds, hostId, tempId, script)
  }

  /** The lines of the final summary. */
  function Lines(log: seq<LogEntry>): (ls: seq<string>)
    ensures |ls| == |log|
    ensures forall i :: 0 <= i < |log| ==> ls[i] == "[" + log[i].agentName + " (" + log[i].agentId + ")]: " + log[i].message
  {
    seq(|log|, i requires 0 <= i < |log| => "[" + log[i].agentName + " (" + log[i].agentId + ")]: " + log[i].message)
  }

  /** The prompt the clone is given: the run's prompt, or a fixed text when there is none. */
  function MeetingPrompt(prompt: Option<string>): string {
    if prompt.Some? && prompt.value != "" then prompt.value else "Meeting called"
  }

  /** The state just before the first turn, from the registry after the clone is registered. */
  function Opening(reg1: Registry, children: seq<nat>, tempObj: nat, objective: string)
    : (r: (seq<Agent>, map<string, map<string, bool>>, seq<LogEntry>))
    requires Within(reg1.heap, children) && tempObj < |reg1.heap|
    ensures |r.0| == |reg1.heap|
  {
    var stripped := StripCapabilities(reg1.heap, children, map[]);
    var heap2 := stripped.0;
    var saved := stripped.1;
    var init := "Meeting initialized with objective: " + objective;
    var log := [LogEntry(reg1.heap[tempObj].name, reg1.heap[tempObj].id, init)];
    var heap3 := Append(heap2, tempObj, [UserPrompt(init)]);
    var heap4 := AppendTo(heap3, children, None, UserPrompt(init));
    var heap5 := AppendTo(heap4, children, None, Instructions(false));
    var heap6 := Append(heap5, tempObj, [Instructions(true)]);
    (heap6, saved, log)
  }

  /**
   * The meeting proper, once the clone (object `|reg1.heap| - 1`, id `tempId`) is registered: the
   * opening messages, then the loop over the clone and the children. Returns the loop's final
   * state and the saved capability maps.
   */
  function Session(reg1: Registry, servers: ServerTable, children: seq<nat>, hostId: string, tempId: string,
                   objective: string, maxTurns: int, script: nat -> Reply)
    : (r: (Talk, map<string, map<string, bool>>))
    requires |reg1.heap| > 0 && Within(reg1.heap, children)
    ensures |r.0.heap| == |reg1.heap|
  {
    var tempObj := |reg1.heap| - 1;
    var start := Opening(reg1, children, tempObj, objective);
    var heap6 := start.0;
    var saved := start.1;
    var log := start.2;
    var parts := [tempObj] + children;
    assert Within(heap6, parts) by {
      forall i | 0 <= i < |parts|
        ensures parts[i] < |heap6|
      {
        if i > 0 {
          assert parts[i] == children[i - 1];
        }
      }
    }
    var maxRounds := Min(maxTurns * |parts|, RoundCeiling);
    (Discussion(Talk(heap6, servers, log, [], 0), parts, 0, 0, maxRounds, hostId, tempId, script), saved)
  }

  /**
   * The end of the meeting: the children get their capabilities back and the closing message,
   * and the clone's id is unregistered.
   */
  function Closing(reg1: Registry, end: Talk, children: seq<nat>, saved: map<string, map<string, bool>>, tempId: string)
    : (reg3: Registry)
    requires |end.heap| == |reg1.heap| && Within(reg1.heap, children)
    ensures |reg3.heap| == |reg1.heap| && reg3.agents == reg1.agents - {tempId}
  {
    var heap7 := RestoreCapabilities(end.heap, children, saved);
    var heap8 := AppendTo(heap7, children, None, UserPrompt(ClosingMessage));
    var reg2 := Registry(heap8, reg1.agents, reg1.order);
    if tempId in reg2.agents then Delete(reg2, tempId) else reg2
  }

  /** The reply of `call_meeting`: the log, one line per entry. */
  function Summary(log: seq<LogEntry>): string {
    "Meeting complete. Summary:\n\n" + Join("\n", Lines(log))
  }

  /** `call_meeting` called by agent `hostId`. */
  function Meeting(reg: Registry, servers: ServerTable, hostId: string, prompt: Option<string>,
                   objective: string, maxTurns: int, script: nat -> Reply): (out: Outcome)
    requires Coherent(reg)
    ensures out.result.Err? <==> hostId !in reg.agents
    ensures out.result.Err? ==> out == Outcome(reg, servers, Err(KeyError(hostId)))
    ensures hostId in reg.agents && reg.heap[reg.agents[hostId]].children == [] ==>
      out == Outcome(reg, servers, Ok(NoChildrenReply))
    ensures hostId in reg.agents && reg.heap[reg.agents[hostId]].children != [] ==>
      StartsWith(out.result.value, "Meeting complete. Summary:\n\n")
  {
    if hostId !in reg.agents then Outcome(reg, servers, Err(KeyError(hostId)))
    else if LinkObjs(reg.heap[reg.agents[hostId]].children) == [] then Outcome(reg, servers, Ok(NoChildrenReply))
    else Held(reg, servers, hostId, prompt, objective, maxTurns, script)
  }

  /**
   * A meeting of host `hostId` with at least one child: the clone of the host is registered,
   * the session runs, and the closing undoes the capability changes and the registration.
   */
  function Held(reg: Registry, servers: ServerTable, hostId: string, prompt: Option<string>,
                objective: string, maxTurns: int, script: nat -> Reply): (out: Outcome)
    requires Coherent(reg) && hostId in reg.agents && reg.heap[reg.agents[hostId]].children != []
  {
    var host := reg.heap[reg.agents[hostId]];
    var children := LinkObjs(host.children);
    var tempId := hostId + "_temp";
    var reg1 := Insert(reg, tempId, TempHost(host, tempId, MeetingPrompt(prompt)));
    assert Within(reg1.heap, children) by {
      assert LinksCoherent(reg.heap, host.children);
    }
    var session := Session(reg1, servers, children, hostId, tempId, objective, maxTurns, script);
    var end := session.0;
    var saved := session.1;
    Outcome(Closing(reg1, end, children, saved, tempId), end.servers, Ok(Summary(end.log)))
  }
}
