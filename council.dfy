/**
 * The council of archive/src/aiagency_v1.py: `create_council_meeting` and
 * `process_council_message` update the project state in place (one council turn at a time,
 * with the model's reply as an input), and `get_next_agent` and `router` choose who acts next.
 */
module Councils {
  import opened Wrappers
  import opened Text

  /** A chat message dictionary: `role`, optional `name`, `content`. */
  datatype ChatMessage = ChatMessage(role: string, name: Option<string>, content: string)

  /** A task as the router reads it: `t.get("status")` and `t.get("assigned_to")`. */
  datatype Task = Task(status: Option<string>, assignedTo: Option<string>)

  /** An action item extracted from a finished meeting. */
  datatype ActionItem = ActionItem(taskId: string, description: string, assignedTo: string)

  /**
   * What `process_council_results` obtains from the extraction model: `None` when its reply
   * is not JSON, otherwise the two optional keys.
   */
  datatype Extracted = Extracted(decisions: Option<seq<string>>, actionItems: Option<seq<ActionItem>>)

  /** A council meeting dictionary. */
  datatype Council = Council(
    meetingId: string,
    topic: string,
    participants: seq<string>,
    messages: seq<ChatMessage>,
    status: string,
    decisions: seq<string>,
    actionItems: seq<ActionItem>,
    currentSpeaker: string,
    readyAgents: seq<string>,
    roundCount: int)

  /** The next node of the workflow graph: `END` or a named node. */
  datatype Route = End | Node(name: string)

  const CouncilPromptHead: string :=
    "\nThis is a council meeting between all team members to discuss and coordinate on "
  const CouncilPromptTail: string :=
    ".\n\nThe meeting's objectives are:\n1. Align on project goals and requirements\n"
    + "2. Define interfaces between frontend and backend components\n"
    + "3. Make technical decisions collaboratively\n4. Create clearly defined tasks for each team member\n\n"
    + "Guidelines for discussion:\n- Introduce yourself briefly in your first message\n"
    + "- Be concise and direct in your communications\n- Ask questions to clarify requirements\n"
    + "- Suggest solutions within your area of expertise\n"
    + "- When you have no more input, indicate with \"READY\" on a separate line\n"
    + "- When all participants are READY, provide a summary of your specific action items\n\n"
    + "The meeting ends when all participants have declared READY and provided their summaries.\n"

  /** `COUNCIL_SYSTEM_PROMPT.format(topic=topic)`. */
  function CouncilPrompt(topic: string): string {
    CouncilPromptHead + topic + CouncilPromptTail
  }

  /** `f"council_{n}"`. */
  function CouncilId(n: nat): string {
    "council_" + NatToString(n)
  }

  /** Councils are numbered by their position, so different positions give different ids. */
  lemma CouncilIdsDiffer(m: nat, n: nat)
    requires m != n
    ensures CouncilId(m) != CouncilId(n)
  {
    if CouncilId(m) == CouncilId(n) {
      assert NatToString(m) == CouncilId(m)[8..] == CouncilId(n)[8..] == NatToString(n);
      NatToStringInjective(m, n);
    }
  }

  /**
   * The council `create_council_meeting` appends as the `n`-th one: the system prompt, and the
   * project requirement only when the project's first message is a user message; the first
   * agent speaks first, nobody is ready, no round has passed.
   */
  function NewCouncil(n: nat, agents: seq<string>, topic: string, projectMessages: seq<ChatMessage>): (c: Council)
    requires agents != []
    ensures c.meetingId == CouncilId(n) && c.participants == agents && c.topic == topic
    ensures c.currentSpeaker == agents[0] && c.readyAgents == [] && c.roundCount == 0
    ensures c.status == "in_progress" && c.decisions == [] && c.actionItems == []
    ensures |c.messages| == if projectMessages != [] && projectMessages[0].role == "user" then 2 else 1
    ensures c.messages[0] == ChatMessage("system", None, CouncilPrompt(topic))
    ensures |c.messages| == 2 ==>
      c.messages[1] == ChatMessage("user", None, "Project requirement: " + projectMessages[0].content)
  {
    var system := ChatMessage("system", None, CouncilPrompt(topic));
    var messages :=
      if projectMessages != [] && projectMessages[0].role == "user" then
        [system, ChatMessage("user", None, "Project requirement: " + projectMessages[0].content)]
      else [system];
    Council(CouncilId(n), topic, agents, messages, "in_progress", [], [], agents[0], [], 0)
  }

  /** Index of the first council with the given id (`next(m for m in ... if ...)`). */
  function FirstWithId(councils: seq<Council>, id: string): (r: Option<nat>)
    ensures r.None? <==> forall i :: 0 <= i < |councils| ==> councils[i].meetingId != id
    ensures r.Some? ==>
      && r.value < |councils| && councils[r.value].meetingId == id
      && (forall i :: 0 <= i < r.value ==> councils[i].meetingId != id)
  {
    if councils == [] then None
    else if councils[0].meetingId == id then Some(0)
    else match FirstWithId(councils[1..], id)
      case None => None
      case Some(i) => Some(i + 1)
  }

  /** `list.index(x)`: the position of the first occurrence. */
  function IndexIn(s: seq<string>, x: string): (r: Option<nat>)
    ensures r.None? <==> x !in s
    ensures r.Some? ==> r.value < |s| && s[r.value] == x && forall i :: 0 <= i < r.value ==> s[i] != x
  {
    if s == [] then None
    else if s[0] == x then Some(0)
    else match IndexIn(s[1..], x)
      case None => None
      case Some(i) => Some(i + 1)
  }

  /** `ready` after the forcing loop: every participant not yet in it is appended, in order. */
  function WithAll(ready: seq<string>, participants: seq<string>): (r: seq<string>)
    decreases |participants|
  {
    if participants == [] then ready
    else
      var ready' := if participants[0] in ready then ready else ready + [participants[0]];
      WithAll(ready', participants[1..])
  }

  /**
   * The forcing loop keeps what was ready in front, adds every participant, adds nothing else
   * and never a duplicate.
   */
  lemma {:induction false} WithAllAdds(ready: seq<string>, participants: seq<string>)
    ensures var r := WithAll(ready, participants);
      && |r| >= |ready| && r[..|ready|] == ready
      && (forall p :: p in participants ==> p in r)
      && (forall x :: x in r ==> x in ready || x in participants)
      && (NoDuplicates(ready) ==> NoDuplicates(r))
    decreases |participants|
  {
    if participants != [] {
      var p := participants[0];
      var ready' := if p in ready then ready else ready + [p];
      WithAllAdds(ready', participants[1..]);
      var r := WithAll(ready, participants);
      assert r == WithAll(ready', participants[1..]);
      assert r[..|ready|] == r[..|ready'|][..|ready|];
      assert p in r by {
        assert p in ready';
        var k :| 0 <= k < |ready'| && ready'[k] == p;
        assert r[k] == p;
      }
      forall x | x in ready
        ensures x in r
      {
        var k :| 0 <= k < |ready| && ready[k] == x;
        assert r[k] == x;
      }
      if NoDuplicates(ready) && p !in ready {
        assert NoDuplicates(ready');
      }
    }
  }

  /** The model's reply counts as ready when its upper-cased text contains `READY`. */
  predicate SaysReady(reply: string) {
    Contains(Upper(reply), "READY")
  }

  /** The value of one council after one processed turn, and any exception it raised. */
  datatype Turned = Turned(council: Council, error: Option<Raised>)

  /**
   * One turn of `process_council_message` on an open council: the reply is recorded under
   * the speaker's name, the round counter advances, every participant is made ready once the
   * counter reaches five times the number of participants, the speaker is made ready when the
   * reply says so, the next participant in turn becomes the speaker, and the meeting closes with
   * its results once everybody is ready. A speaker who is not a participant makes `index` raise
   * after the reply has been recorded.
   */
  function CouncilTurn(c: Council, reply: string, extracted: Option<Extracted>): (t: Turned)
  {
    var spoken := Spoken(c, reply);
    match IndexIn(c.participants, c.currentSpeaker)
    case None => Turned(spoken, Some(ValueError("'" + c.currentSpeaker + "' is not in list")))
    case Some(i) =>
      var moved := spoken.(currentSpeaker := c.participants[(i + 1) % |c.participants|]);
      Turned(if |spoken.readyAgents| == |c.participants| then Concluded(moved, extracted) else moved, None)
  }

  /** The ready list after the forcing loop of a turn. */
  function Forced(c: Council): seq<string> {
    if c.roundCount + 1 >= |c.participants| * 5 then WithAll(c.readyAgents, c.participants) else c.readyAgents
  }

  /** The ready list at the end of a turn. */
  function ReadyAfter(c: Council, reply: string): seq<string> {
    var forced := Forced(c);
    if SaysReady(reply) && c.currentSpeaker !in forced then forced + [c.currentSpeaker] else forced
  }

  /** The council once the reply is recorded, before the speaker changes. */
  function Spoken(c: Council, reply: string): Council {
    c.(messages := c.messages + [ChatMessage("assistant", Some(c.currentSpeaker), reply)],
       roundCount := c.roundCount + 1,
       readyAgents := ReadyAfter(c, reply))
  }

  /** `process_council_results` followed by `status = "completed"`. */
  function Concluded(c: Council, extracted: Option<Extracted>): (r: Council)
    ensures r == c.(status := "completed", decisions := r.decisions, actionItems := r.actionItems)
    ensures extracted.None? ==> r.decisions == ["Failed to parse meeting results"] && r.actionItems == []
  {
    match extracted
    case None => c.(status := "completed", decisions := ["Failed to parse meeting results"], actionItems := [])
    case Some(e) =>
      c.(status := "completed",
         decisions := if e.decisions.Some? then e.decisions.value else [],
         actionItems := if e.actionItems.Some? then e.actionItems.value else [])
  }

  /** Each turn records exactly one assistant message, named for the speaker, and one round. */
  lemma TurnRecords(c: Council, reply: string, extracted: Option<Extracted>)
    ensures var t := CouncilTurn(c, reply, extracted).council;
      && t.messages == c.messages + [ChatMessage("assistant", Some(c.currentSpeaker), reply)]
      && t.roundCount == c.roundCount + 1
      && t.participants == c.participants && t.meetingId == c.meetingId && t.topic == c.topic
  {
  }

  /**
   * The ready list keeps its members in front, gains no duplicate and no one but participants
   * and the speaker; the speaker joins it when the reply says READY, and every participant joins
   * it once the round counter reaches five times the number of participants.
   */
  lemma TurnReady(c: Council, reply: string, extracted: Option<Extracted>)
    ensures var r := CouncilTurn(c, reply, extracted).council.readyAgents;
      && |r| >= |c.readyAgents| && r[..|c.readyAgents|] == c.readyAgents
      && (NoDuplicates(c.readyAgents) ==> NoDuplicates(r))
      && (forall x :: x in r ==> x in c.readyAgents || x in c.participants || x == c.currentSpeaker)
      && (SaysReady(reply) ==> c.currentSpeaker in r)
      && (c.roundCount + 1 >= 5 * |c.participants| ==> forall p :: p in c.participants ==> p in r)
  {
    assert CouncilTurn(c, reply, extracted).council.readyAgents == ReadyAfter(c, reply);
    ReadyAfterGrows(c, reply);
  }

  /** `TurnReady` for the ready list alone. */
  lemma ReadyAfterGrows(c: Council, reply: string)
    ensures var r := ReadyAfter(c, reply);
      && |r| >= |c.readyAgents| && r[..|c.readyAgents|] == c.readyAgents
      && (NoDuplicates(c.readyAgents) ==> NoDuplicates(r))
      && (forall x :: x in r ==> x in c.readyAgents || x in c.participants || x == c.currentSpeaker)
      && (SaysReady(reply) ==> c.currentSpeaker in r)
      && (c.roundCount + 1 >= 5 * |c.participants| ==> forall p :: p in c.participants ==> p in r)
  {
    var forced := Forced(c);
    WithAllAdds(c.readyAgents, c.participants);
    var r := ReadyAfter(c, reply);
    assert r[..|forced|] == forced;
    assert r[..|c.readyAgents|] == forced[..|c.readyAgents|];
    forall x | x in forced
      ensures x in r
    {
      var k :| 0 <= k < |forced| && forced[k] == x;
      assert r[k] == x;
    }
  }

  /**
   * A speaker who is a participant is followed by the next participant in order (wrapping
   * around), and the council is completed exactly when everybody is ready.
   */
  lemma TurnRotates(c: Council, reply: string, extracted: Option<Extracted>)
    requires c.currentSpeaker in c.participants && c.status != "completed"
    ensures var t := CouncilTurn(c, reply, extracted);
      var i := IndexIn(c.participants, c.currentSpeaker).value;
      && t.error.None?
      && t.council.currentSpeaker == c.participants[(i + 1) % |c.participants|]
      && (t.council.status == "completed" <==> |t.council.readyAgents| == |c.participants|)
      && (t.council.status != "completed" ==> t.council.status == c.status)
  {
  }

  /** A speaker outside the participants makes the turn raise, after recording the reply. */
  lemma TurnRaises(c: Council, reply: string, extracted: Option<Extracted>)
    requires c.currentSpeaker !in c.participants
    ensures var t := CouncilTurn(c, reply, extracted);
      && t.error == Some(ValueError("'" + c.currentSpeaker + "' is not in list"))
      && t.council.status == c.status && t.council.currentSpeaker == c.currentSpeaker
  {
  }

  /** The shape every council keeps: its ready list is duplicate-free and made of participants, and its speaker takes part. */
  predicate WellFormed(c: Council) {
    && NoDuplicates(c.readyAgents)
    && (forall x :: x in c.readyAgents ==> x in c.participants)
    && c.currentSpeaker in c.participants
  }

  /** A turn keeps a council well formed. */
  lemma TurnKeepsWellFormed(c: Council, reply: string, extracted: Option<Extracted>)
    requires WellFormed(c)
    ensures WellFormed(CouncilTurn(c, reply, extracted).council)
  {
    TurnReady(c, reply, extracted);
    var i := IndexIn(c.participants, c.currentSpeaker).value;
    assert 0 <= (i + 1) % |c.participants| < |c.participants|;
  }

  /** A duplicate-free list whose members all occur in `b` is no longer than `b`. */
  lemma {:induction false} MembersNoLonger(a: seq<string>, b: seq<string>)
    requires NoDuplicates(a)
    requires forall x :: x in a ==> x in b
    ensures |a| <= |b|
    decreases |a|
  {
    if a != [] {
      var x := a[0];
      assert x in a;
      var k :| 0 <= k < |b| && b[k] == x;
      var b' := b[..k] + b[k + 1..];
      assert NoDuplicates(a[1..]);
      forall y | y in a[1..]
        ensures y in b'
      {
        var n :| 0 <= n < |a[1..]| && a[1..][n] == y;
        assert a[n + 1] == y && y in a && y != x;
        var m :| 0 <= m < |b| && b[m] == y;
        if m < k {
          assert b'[m] == y;
        } else {
          assert b'[m - 1] == y;
        }
      }
      MembersNoLonger(a[1..], b');
    }
  }

  /** Two duplicate-free lists with the same members have the same length. */
  lemma SameMembersSameLength(a: seq<string>, b: seq<string>)
    requires NoDuplicates(a) && NoDuplicates(b)
    requires forall x :: x in a <==> x in b
    ensures |a| == |b|
  {
    MembersNoLonger(a, b);
    MembersNoLonger(b, a);
  }

  /**
   * With duplicate-free participants, a well-formed council that reaches the round limit is
   * completed on that turn.
   */
  lemma ForcedTurnCompletes(c: Council, reply: string, extracted: Option<Extracted>)
    requires WellFormed(c) && NoDuplicates(c.participants) && c.status != "completed"
    requires c.roundCount + 1 >= 5 * |c.participants|
    ensures CouncilTurn(c, reply, extracted).council.status == "completed"
  {
    TurnReady(c, reply, extracted);
    TurnKeepsWellFormed(c, reply, extracted);
    TurnRotates(c, reply, extracted);
    var r := CouncilTurn(c, reply, extracted).council.readyAgents;
    SameMembersSameLength(r, c.participants);
  }

  /** The project state dictionary, as far as the council and the router read and write it. */
  class Project {
    var messages: seq<ChatMessage>
    var councils: seq<Council>
    var currentCouncil: Option<string>
    var status: Option<string>
    var tasks: seq<Task>

    /** A project state without councils. */
    constructor (messages: seq<ChatMessage>, status: Option<string>, tasks: seq<Task>)
      ensures this.messages == messages && this.status == status && this.tasks == tasks
      ensures councils == [] && currentCouncil == None
      ensures Valid()
    {
      this.messages, this.status, this.tasks := messages, status, tasks;
      councils, currentCouncil := [], None;
    }

    /** Every council carries the id of its position and is well formed. */
    predicate Valid()
      reads this
    {
      forall i :: 0 <= i < |councils| ==> councils[i].meetingId == CouncilId(i) && WellFormed(councils[i])
    }

    /**
     * `create_council_meeting`: without agents `agents[0]` raises and nothing changes;
     * otherwise a new council numbered after the existing ones is appended and becomes the
     * current one.
     */
    method CreateCouncilMeeting(agents: seq<string>, topic: string) returns (err: Option<Raised>)
      modifies this
      ensures agents == [] ==>
        && err == Some(IndexError("list index out of range")) && councils == old(councils)
        && currentCouncil == old(currentCouncil)
      ensures agents != [] ==>
        && err.None?
        && councils == old(councils) + [NewCouncil(|old(councils)|, agents, topic, old(messages))]
        && currentCouncil == Some(CouncilId(|old(councils)|))
      ensures messages == old(messages) && status == old(status) && tasks == old(tasks)
      ensures old(Valid()) ==> Valid()
    {
      if agents == [] {
        return Some(IndexError("list index out of range"));
      }
      var c := NewCouncil(|councils|, agents, topic, messages);
      councils := councils + [c];
      currentCouncil := Some(c.meetingId);
      err := None;
    }

    /** The loop of `process_council_message` that finds the current council. */
    method FindCouncil(id: string) returns (idx: Option<nat>)
      ensures idx == FirstWithId(councils, id)
    {
      var i := 0;
      while i < |councils|
        invariant i <= |councils|
        invariant forall k :: 0 <= k < i ==> councils[k].meetingId != id
      {
        if councils[i].meetingId == id {
          return Some(i);
        }
        i := i + 1;
      }
      return None;
    }

    /**
     * `process_council_message`, with `reply` the speaker's generated message and `extracted`
     * the outcome of the results extraction: no current council raises, an unknown or finished
     * council leaves everything as it is, and otherwise that council takes one turn.
     */
    method ProcessCouncilMessage(reply: string, extracted: Option<Extracted>) returns (err: Option<Raised>)
      modifies this
      ensures currentCouncil.None? ==> err == Some(KeyError("current_council")) && councils == old(councils)
      ensures currentCouncil.Some? ==>
        var i := FirstWithId(old(councils), currentCouncil.value);
        if i.None? || old(councils)[i.value].status == "completed" then err.None? && councils == old(councils)
        else
          var t := CouncilTurn(old(councils)[i.value], reply, extracted);
          councils == old(councils)[i.value := t.council] && err == t.error
      ensures messages == old(messages) && status == old(status) && tasks == old(tasks)
      ensures currentCouncil == old(currentCouncil)
      ensures old(Valid()) ==> Valid()
      ensures old(Valid()) && currentCouncil.Some? ==> err.None?
    {
      if currentCouncil.None? {
        return Some(KeyError("current_council"));
      }
      var found := FindCouncil(currentCouncil.value);
      if found.None? || councils[found.value].status == "completed" {
        return None;
      }
      var i := found.value;
      var t := TakeTurn(councils[i], reply, extracted);
      councils := councils[i := t.council];
      err := t.error;
      if old(Valid()) {
        ValidAfterTurn(old(councils), i, reply, extracted);
      }
    }

    /** The whole project is in a state `router` sends to the council. */
    predicate CouncilActive()
      reads this
    {
      && currentCouncil.Some? && currentCouncil.value != []
      && var i := FirstWithId(councils, currentCouncil.value);
        i.Some? && councils[i.value].status == "in_progress"
    }

    /** The first task with the given status, if any. */
    function FirstTask(wanted: string): (r: Option<Task>)
      reads this
      ensures r.None? <==> forall k :: 0 <= k < |tasks| ==> tasks[k].status != Some(wanted)
      ensures r.Some? ==> r.value.status == Some(wanted)
    {
      var i := FirstWithStatus(tasks, wanted);
      if i.Some? then Some(tasks[i.value]) else None
    }

    /**
     * `get_next_agent`: the council while it is in progress, the supervisor while the project
     * is not started or planning, then the assignee of the first task in progress or else of the
     * first task not started (whatever it is, possibly none), else the supervisor.
     */
    function GetNextAgent(): (r: Option<string>)
      reads this
      ensures CouncilActive() ==> r == Some("council")
      ensures !CouncilActive() && status in {Some("not_started"), Some("planning")} ==> r == Some("supervisor")
      ensures r.None? ==> status == Some("in_progress") && tasks != []
    {
      if CouncilActive() then Some("council")
      else if status in {Some("not_started"), Some("planning")} then Some("supervisor")
      else if status == Some("in_progress") && tasks != [] then
        match FirstTask("in_progress")
        case Some(t) => t.assignedTo
        case None =>
          match FirstTask("not_started")
          case Some(t) => t.assignedTo
          case None => Some("supervisor")
      else Some("supervisor")
    }

    /**
     * `router`: END exactly when the project is completed; otherwise the order of
     * `get_next_agent`, except that a task's assignee is taken only when it is `frontend` or
     * `backend`.
     */
    function Router(): (r: Route)
      reads this
      ensures r == End <==> status == Some("completed")
      ensures r.Node? ==> r.name in {"council", "supervisor", "frontend", "backend"}
      ensures status != Some("completed") ==> (r == Node("council") <==> CouncilActive())
      ensures status != Some("completed") && !CouncilActive() && status in {Some("not_started"), Some("planning")} ==>
        r == Node("supervisor")
      ensures r.Node? && r.name in {"frontend", "backend"} ==> status == Some("in_progress")
    {
      if status == Some("completed") then End
      else if CouncilActive() then Node("council")
      else if status in {Some("not_started"), Some("planning")} then Node("supervisor")
      else if status == Some("in_progress") && tasks != [] then
        var first := FirstTask("in_progress");
        if first.Some? && first.value.assignedTo in {Some("frontend"), Some("backend")} then Node(first.value.assignedTo.value)
        else
          var next := FirstTask("not_started");
          if next.Some? && next.value.assignedTo in {Some("frontend"), Some("backend")} then Node(next.value.assignedTo.value)
          else Node("supervisor")
      else Node("supervisor")
    }

    /**
     * Where `get_next_agent` names `frontend` or `backend`, `router` (on a project that is not
     * completed) goes to the same node.
     */
    lemma RouterFollowsNextAgent()
      requires status != Some("completed")
      requires GetNextAgent() in {Some("frontend"), Some("backend")}
      ensures Router() == Node(GetNextAgent().value)
    {
    }
  }

  /** Index of `[t for t in tasks if t.get("status") == wanted][0]` in `tasks`, when there is one. */
  function FirstWithStatus(tasks: seq<Task>, wanted: string): (r: Option<nat>)
    ensures r.None? <==> forall k :: 0 <= k < |tasks| ==> tasks[k].status != Some(wanted)
    ensures r.Some? ==>
      && r.value < |tasks| && tasks[r.value].status == Some(wanted)
      && (forall k :: 0 <= k < r.value ==> tasks[k].status != Some(wanted))
  {
    if tasks == [] then None
    else if tasks[0].status == Some(wanted) then Some(0)
    else match FirstWithStatus(tasks[1..], wanted)
      case None => None
      case Some(i) => Some(i + 1)
  }

  /** The forcing loop of `process_council_message`. */
  method ForceReady(ready: seq<string>, participants: seq<string>) returns (r: seq<string>)
    ensures r == WithAll(ready, participants)
  {
    r := ready;
    var i := 0;
    while i < |participants|
      invariant i <= |participants|
      invariant WithAll(r, participants[i..]) == WithAll(ready, participants)
    {
      assert participants[i..][0] == participants[i] && participants[i..][1..] == participants[i + 1..];
      if participants[i] !in r {
        r := r + [participants[i]];
      }
      i := i + 1;
    }
    assert participants[i..] == [];
  }

  /** The body of `process_council_message` from the speaker's reply to the completion check. */
  method TakeTurn(c: Council, reply: string, extracted: Option<Extracted>) returns (t: Turned)
    ensures t == CouncilTurn(c, reply, extracted)
  {
    var speaker := c.currentSpeaker;
    var isReady := Contains(Upper(reply), "READY");
    var roundCount := c.roundCount + 1;
    var ready := c.readyAgents;
    if roundCount >= |c.participants| * 5 {
      ready := ForceReady(ready, c.participants);
    }
    assert ready == Forced(c);
    if isReady && speaker !in ready {
      ready := ready + [speaker];
    }
    assert ready == ReadyAfter(c, reply);
    var council := c.(
      messages := c.messages + [ChatMessage("assistant", Some(speaker), reply)],
      roundCount := roundCount,
      readyAgents := ready);
    assert council == Spoken(c, reply);
    var at := IndexIn(c.participants, speaker);
    if at.None? {
      return Turned(council, Some(ValueError("'" + speaker + "' is not in list")));
    }
    council := council.(currentSpeaker := c.participants[(at.value + 1) % |c.participants|]);
    if |ready| == |c.participants| {
      council := Concluded(council, extracted);
    }
    t := Turned(council, None);
  }

  /** Replacing a council by its turn keeps the project's councils numbered and well formed. */
  lemma ValidAfterTurn(councils: seq<Council>, i: nat, reply: string, extracted: Option<Extracted>)
    requires i < |councils|
    requires forall k :: 0 <= k < |councils| ==> councils[k].meetingId == CouncilId(k) && WellFormed(councils[k])
    ensures var cs := councils[i := CouncilTurn(councils[i], reply, extracted).council];
      forall k :: 0 <= k < |cs| ==> cs[k].meetingId == CouncilId(k) && WellFormed(cs[k])
    ensures CouncilTurn(councils[i], reply, extracted).error.None?
  {
    TurnKeepsWellFormed(councils[i], reply, extracted);
    TurnRecords(councils[i], reply, extracted);
  }
}
