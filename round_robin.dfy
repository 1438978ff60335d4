/**
 * The round-robin meeting of archive/src/ai_agency_v2/meeting.py: a meeting state, the prompt
 * each agent is given, one agent's turn (with the agent's reply as an input) and the test that
 * ends the meeting. Every operation builds a new state and leaves its input as it was.
 */
module RoundRobin {
  import opened Wrappers
  import opened Text

  /** A meeting participant; its language model is the `reply` given to `AgentTurn`. */
  datatype Agent = Agent(name: string, systemMessage: string)

  /** A transcript entry: `role`, `content`, and the optional `from`. */
  datatype Msg = Msg(role: string, content: string, from: Option<string>)

  /** A message sent to an agent's language model. */
  datatype PromptMessage = SystemMessage(content: string) | HumanMessage(content: string)

  /** `MeetingState`. */
  datatype MeetingState = MeetingState(
    agents: seq<Agent>,
    description: string,
    messages: seq<Msg>,
    currentAgentIdx: int,
    meetingComplete: bool)

  /** The node `should_continue` chooses. */
  datatype Next = End | AgentTurnNode

  const IntroTail: string :=
    "\n\nThis is a conversation between multiple agents. "
    + "When it's your turn, you can respond or type 'PASS' to skip your turn, "
    + "or 'MEETING END' when the discussion is complete."

  /** `initialize_meeting`: one facilitator message stating the goal; the first agent is to speak. */
  function InitializeMeeting(description: string, agents: seq<Agent>): (s: MeetingState)
    ensures s.agents == agents && s.description == description
    ensures |s.messages| == 1 && s.messages[0].role == "human" && s.messages[0].from == Some("Facilitator")
    ensures StartsWith(s.messages[0].content, "Meeting Goal: " + description)
    ensures s.currentAgentIdx == 0 && !s.meetingComplete
  {
    var intro := "Meeting Goal: " + description + IntroTail;
    assert intro[..|"Meeting Goal: " + description|] == "Meeting Goal: " + description;
    MeetingState(agents, description, [Msg("human", intro, Some("Facilitator"))], 0, false)
  }

  /** Python's `xs[i]`: negative indexes count from the end, others raise `IndexError`. */
  function PyIndex<T>(xs: seq<T>, i: int): (r: Result<T, Raised>)
    ensures r.Ok? <==> -|xs| <= i < |xs|
    ensures 0 <= i < |xs| ==> r == Ok(xs[i])
  {
    if 0 <= i < |xs| then Ok(xs[i])
    else if -|xs| <= i < 0 then Ok(xs[|xs| + i])
    else Err(IndexError("list index out of range"))
  }

  /** How one transcript entry is shown to an agent, if at all. */
  function Render(m: Msg): (r: Option<PromptMessage>)
    ensures r.Some? <==> m.role in {"human", "ai"}
  {
    if m.role == "human" then Some(HumanMessage(m.content))
    else if m.role == "ai" then
      Some(HumanMessage((if m.from.Some? then m.from.value else "Unknown Agent") + ": " + m.content))
    else None
  }

  /** The loop of `format_messages_for_agent` over the transcript. */
  function Transcript(ms: seq<Msg>): (r: seq<PromptMessage>)
    decreases |ms|
  {
    if ms == [] then []
    else
      var first := Render(ms[0]);
      (if first.Some? then [first.value] else []) + Transcript(ms[1..])
  }

  /** The entries an agent is shown: human and ai ones, in order. */
  function Shown(ms: seq<Msg>): (r: seq<Msg>)
    ensures forall k :: 0 <= k < |r| ==> r[k].role in {"human", "ai"}
    decreases |ms|
  {
    if ms == [] then []
    else (if ms[0].role in {"human", "ai"} then [ms[0]] else []) + Shown(ms[1..])
  }

  /** Rendering each shown entry: every shown entry is present once, in order. */
  function RenderAll(ms: seq<Msg>): (r: seq<PromptMessage>)
    requires forall k :: 0 <= k < |ms| ==> ms[k].role in {"human", "ai"}
    ensures |r| == |ms|
    ensures forall k :: 0 <= k < |ms| ==> Render(ms[k]) == Some(r[k])
  {
    if ms == [] then [] else [Render(ms[0]).value] + RenderAll(ms[1..])
  }

  /**
   * The transcript shown to an agent is the human and ai entries, in order, each rendered once
   * (ai entries prefixed with their sender), and nothing else.
   */
  lemma {:induction false} TranscriptIsShown(ms: seq<Msg>)
    ensures Transcript(ms) == RenderAll(Shown(ms))
    decreases |ms|
  {
    if ms != [] {
      TranscriptIsShown(ms[1..]);
      var rest := Shown(ms[1..]);
      if ms[0].role in {"human", "ai"} {
        assert Shown(ms) == [ms[0]] + rest;
        assert RenderAll([ms[0]] + rest) == [Render(ms[0]).value] + RenderAll(rest) by {
          assert ([ms[0]] + rest)[1..] == rest;
        }
      } else {
        assert Shown(ms) == rest;
      }
    }
  }

  /** The last prompt, naming the agent whose turn it is. */
  function TurnPrompt(name: string): PromptMessage {
    HumanMessage("It's your turn, " + name + ". Please provide your next contribution to the conversation.")
  }

  /**
   * `format_messages_for_agent`: the agent's system message, the shown transcript, and the
   * prompt naming the agent.
   */
  function FormatMessagesForAgent(s: MeetingState, agentIdx: int): (r: Result<seq<PromptMessage>, Raised>)
    ensures r.Ok? <==> -|s.agents| <= agentIdx < |s.agents|
    ensures r.Ok? ==>
      var agent := PyIndex(s.agents, agentIdx).value;
      && |r.value| == |Shown(s.messages)| + 2
      && r.value[0] == SystemMessage(agent.systemMessage)
      && r.value[1..|r.value| - 1] == RenderAll(Shown(s.messages))
      && r.value[|r.value| - 1] == TurnPrompt(agent.name)
  {
    match PyIndex(s.agents, agentIdx)
    case Err(e) => Err(e)
    case Ok(agent) =>
      TranscriptIsShown(s.messages);
      var r := [SystemMessage(agent.systemMessage)] + Transcript(s.messages) + [TurnPrompt(agent.name)];
      assert r[1..|r| - 1] == Transcript(s.messages);
      Ok(r)
  }

  /** `all("PASS" in m["content"] for m in ms if m["role"] == "ai")`. */
  predicate AllPass(ms: seq<Msg>)
    decreases |ms|
  {
    ms == [] || ((ms[0].role == "ai" ==> Contains(ms[0].content, "PASS")) && AllPass(ms[1..]))
  }

  /** `AllPass` of a suffix holds exactly when every ai entry from position `w` on contains `PASS`. */
  lemma {:induction false} AllPassFrom(ms: seq<Msg>, w: nat)
    requires w <= |ms|
    ensures AllPass(ms[w..]) <==> forall k :: w <= k < |ms| && ms[k].role == "ai" ==> Contains(ms[k].content, "PASS")
    decreases |ms| - w
  {
    if w < |ms| {
      AllPassFrom(ms, w + 1);
      assert ms[w..][0] == ms[w] && ms[w..][1..] == ms[w + 1..];
    }
  }

  /**
   * `agent_turn` with `reply` the current agent's answer: the reply is appended as an ai entry
   * from that agent, the next agent in order is to speak, and the meeting is complete when the
   * reply says `MEETING END` or every ai entry among the last `|agents|` entries says `PASS`.
   */
  function AgentTurn(s: MeetingState, reply: string): (r: Result<MeetingState, Raised>)
    ensures r.Ok? <==> -|s.agents| <= s.currentAgentIdx < |s.agents|
  {
    match PyIndex(s.agents, s.currentAgentIdx)
    case Err(e) => Err(e)
    case Ok(agent) =>
      var updated := s.messages + [Msg("ai", reply, Some(agent.name))];
      var complete := Contains(reply, "MEETING END") || AllPass(PyLast(updated, |s.agents|));
      Ok(s.(messages := updated, currentAgentIdx := (s.currentAgentIdx + 1) % |s.agents|, meetingComplete := complete))
  }

  /**
   * A turn keeps the agents and the description, adds exactly one ai entry from the current
   * agent after the old transcript, and passes the turn to the next agent, wrapping around.
   */
  lemma TurnAppends(s: MeetingState, reply: string)
    requires 0 <= s.currentAgentIdx < |s.agents|
    ensures var r := AgentTurn(s, reply);
      && r.Ok?
      && r.value.agents == s.agents && r.value.description == s.description
      && r.value.messages == s.messages + [Msg("ai", reply, Some(s.agents[s.currentAgentIdx].name))]
      && 0 <= r.value.currentAgentIdx < |s.agents|
      && r.value.currentAgentIdx == if s.currentAgentIdx + 1 == |s.agents| then 0 else s.currentAgentIdx + 1
  {
    var i, n := s.currentAgentIdx, |s.agents|;
    assert PyIndex(s.agents, i) == Ok(s.agents[i]);
    if i + 1 == n {
      assert (i + 1) % n == 0;
    } else {
      assert (i + 1) % n == i + 1;
    }
  }

  /**
   * The meeting is complete after a turn exactly when the reply contains `MEETING END`, or
   * every ai entry among the last `|agents|` entries of the new transcript contains `PASS`.
   */
  lemma TurnCompletes(s: MeetingState, reply: string)
    requires -|s.agents| <= s.currentAgentIdx < |s.agents|
    ensures var r := AgentTurn(s, reply).value;
      var n := |r.messages|;
      var w := if |s.agents| <= n then n - |s.agents| else 0;
      r.meetingComplete <==>
        || Contains(reply, "MEETING END")
        || forall k :: w <= k < n && r.messages[k].role == "ai" ==> Contains(r.messages[k].content, "PASS")
  {
    var r := AgentTurn(s, reply).value;
    assert r.meetingComplete <==> Contains(reply, "MEETING END") || AllPass(PyLast(r.messages, |s.agents|));
    AllPassLast(r.messages, |s.agents|);
  }

  /** `AllPass` of the last `m` entries (`m >= 1`), stated by position. */
  lemma AllPassLast(ms: seq<Msg>, m: int)
    requires m >= 1
    ensures var w := if m <= |ms| then |ms| - m else 0;
      AllPass(PyLast(ms, m)) <==> forall k :: w <= k < |ms| && ms[k].role == "ai" ==> Contains(ms[k].content, "PASS")
  {
    var w := if m <= |ms| then |ms| - m else 0;
    assert PyLast(ms, m) == ms[w..];
    AllPassFrom(ms, w);
  }

  /** A reply with neither `PASS` nor `MEETING END` never completes the meeting. */
  lemma SilentReplyContinues(s: MeetingState, reply: string)
    requires -|s.agents| <= s.currentAgentIdx < |s.agents|
    requires !Contains(reply, "PASS") && !Contains(reply, "MEETING END")
    ensures !AgentTurn(s, reply).value.meetingComplete
  {
    TurnCompletes(s, reply);
    var r := AgentTurn(s, reply).value;
    assert r.messages[|r.messages| - 1].content == reply;
  }

  /** `should_continue`: the meeting ends exactly when it is complete. */
  function ShouldContinue(s: MeetingState): (r: Next)
    ensures r == End <==> s.meetingComplete
  {
    if s.meetingComplete then End else AgentTurnNode
  }
}
