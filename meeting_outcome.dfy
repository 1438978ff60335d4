/**
 * What a whole `call_meeting` leaves behind, proved about `Meetings.Meeting`: the registry
 * loses the clone's id again, every child gets its capability map back and ends its history
 * with the closing message, agents outside the meeting are untouched, and the log opens with
 * the objective and then follows the turn order.
 */
module MeetingOutcome {
  import opened Wrappers
  import opened Text
  import opened Agents
  import opened Servers
  import opened Meetings
  import opened MeetingProperties

  /** `b` is agent `a` with a longer history and possibly another capability map. */
  ghost predicate Touched(a: Agent, b: Agent) {
    b == a.(history := b.history, accessibleTools := b.accessibleTools) && a.history <= b.history
  }

  /** The listed objects carry pairwise different ids. */
  ghost predicate DistinctIds(heap: seq<Agent>, objs: seq<nat>)
    requires Within(heap, objs)
  {
    forall i, j :: 0 <= i < j < |objs| ==> heap[objs[i]].id != heap[objs[j]].id
  }

  /** The agents of a coherent `children` dict are different objects with different ids. */
  lemma ChildrenDistinct(heap: seq<Agent>, ls: seq<Link>)
    requires LinksCoherent(heap, ls)
    ensures Within(heap, LinkObjs(ls)) && DistinctIds(heap, LinkObjs(ls)) && Distinct(LinkObjs(ls))
  {
  }

  lemma {:induction false} StripAt(heap: seq<Agent>, objs: seq<nat>, saved: map<string, map<string, bool>>, o: nat)
    requires Within(heap, objs) && Distinct(objs) && o < |heap|
    ensures StripCapabilities(heap, objs, saved).0[o] ==
      if o in objs then heap[o].(accessibleTools := map[]) else heap[o]
    decreases |objs|
  {
    if objs != [] {
      var a := heap[objs[0]];
      assert objs[0] !in objs[1..];
      StripAt(heap[objs[0] := a.(accessibleTools := map[])], objs[1..], saved[a.id := a.accessibleTools], o);
    }
  }

  /** An id that none of the objects carries keeps its saved entry. */
  lemma {:induction false} StripSavedOther(heap: seq<Agent>, objs: seq<nat>, saved: map<string, map<string, bool>>, x: string)
    requires Within(heap, objs) && forall i :: 0 <= i < |objs| ==> heap[objs[i]].id != x
    ensures var s := StripCapabilities(heap, objs, saved).1; (x in s <==> x in saved) && (x in saved ==> s[x] == saved[x])
    decreases |objs|
  {
    if objs != [] {
      var a := heap[objs[0]];
      var h := heap[objs[0] := a.(accessibleTools := map[])];
      assert forall i :: 0 <= i < |objs[1..]| ==> h[objs[1..][i]].id == heap[objs[i + 1]].id;
      StripSavedOther(h, objs[1..], saved[a.id := a.accessibleTools], x);
    }
  }

  /** Each object's capability map is saved under its id. */
  lemma {:induction false} StripSaved(heap: seq<Agent>, objs: seq<nat>, saved: map<string, map<string, bool>>, o: nat)
    requires Within(heap, objs) && DistinctIds(heap, objs) && o in objs
    ensures heap[o].id in StripCapabilities(heap, objs, saved).1
    ensures StripCapabilities(heap, objs, saved).1[heap[o].id] == heap[o].accessibleTools
    decreases |objs|
  {
    var a := heap[objs[0]];
    var h := heap[objs[0] := a.(accessibleTools := map[])];
    assert forall i :: 0 <= i < |objs[1..]| ==> h[objs[1..][i]].id == heap[objs[i + 1]].id;
    if o == objs[0] {
      StripSavedOther(h, objs[1..], saved[a.id := a.accessibleTools], a.id);
    } else {
      var m :| 0 <= m < |objs| && objs[m] == o;
      assert objs[1..][m - 1] == o;
      assert h[o] == heap[o] by {
        assert heap[objs[m]].id != heap[objs[0]].id;
      }
      StripSaved(h, objs[1..], saved[a.id := a.accessibleTools], o);
    }
  }

  lemma {:induction false} RestoreAt(heap: seq<Agent>, objs: seq<nat>, saved: map<string, map<string, bool>>, o: nat)
    requires Within(heap, objs) && Distinct(objs) && o < |heap|
    ensures RestoreCapabilities(heap, objs, saved)[o] ==
      if o in objs then heap[o].(accessibleTools := if heap[o].id in saved then saved[heap[o].id] else map[])
      else heap[o]
    decreases |objs|
  {
    if objs != [] {
      var a := heap[objs[0]];
      var caps := if a.id in saved then saved[a.id] else map[];
      assert objs[0] !in objs[1..];
      RestoreAt(heap[objs[0] := a.(accessibleTools := caps)], objs[1..], saved, o);
    }
  }

  /**
   * The opening of the meeting: children lose their capability maps (saved under their ids),
   * participants get the opening messages, and every other agent is left alone.
   */
  lemma OpeningAt(reg1: Registry, children: seq<nat>, tempObj: nat, objective: string, o: nat)
    requires Within(reg1.heap, children) && Distinct(children) && tempObj < |reg1.heap| && tempObj !in children
    requires o < |reg1.heap|
    ensures var heap6 := Opening(reg1, children, tempObj, objective).0;
      var saved := Opening(reg1, children, tempObj, objective).1;
      && Touched(reg1.heap[o], heap6[o])
      && (o in children ==> heap6[o].accessibleTools == map[])
      && (o !in children ==> heap6[o].accessibleTools == reg1.heap[o].accessibleTools)
      && (o !in children && o != tempObj ==> heap6[o] == reg1.heap[o])
      && (o in children && DistinctIds(reg1.heap, children) ==>
            reg1.heap[o].id in saved && saved[reg1.heap[o].id] == reg1.heap[o].accessibleTools)
  {
    var stripped := StripCapabilities(reg1.heap, children, map[]);
    var heap2 := stripped.0;
    var saved := stripped.1;
    StripAt(reg1.heap, children, map[], o);
    if o in children && DistinctIds(reg1.heap, children) {
      StripSaved(reg1.heap, children, map[], o);
    }
    var init := "Meeting initialized with objective: " + objective;
    var heap3 := Append(heap2, tempObj, [UserPrompt(init)]);
    var heap4 := AppendTo(heap3, children, None, UserPrompt(init));
    AppendToKeptAt(heap3, children, None, UserPrompt(init), o);
    var heap5 := AppendTo(heap4, children, None, Instructions(false));
    AppendToKeptAt(heap4, children, None, Instructions(false), o);
  }

  /** The loop's participants: the clone (the last object) and then the children. */
  lemma PartsWithin(heap: seq<Agent>, children: seq<nat>, tempObj: nat)
    requires Within(heap, children) && tempObj < |heap|
    ensures Within(heap, [tempObj] + children)
  {
    forall i | 0 <= i < |[tempObj] + children|
      ensures ([tempObj] + children)[i] < |heap|
    {
      if i > 0 {
        assert ([tempObj] + children)[i] == children[i - 1];
      }
    }
  }

  /** The meeting proper changes histories, and capabilities only of children; the rest is left alone. */
  lemma SessionAt(reg1: Registry, servers: ServerTable, children: seq<nat>, hostId: string, tempId: string,
                  objective: string, maxTurns: int, script: nat -> Reply, o: nat)
    requires |reg1.heap| > 0 && Within(reg1.heap, children) && Distinct(children) && |reg1.heap| - 1 !in children
    requires o < |reg1.heap|
    ensures var end := Session(reg1, servers, children, hostId, tempId, objective, maxTurns, script).0;
      var saved := Session(reg1, servers, children, hostId, tempId, objective, maxTurns, script).1;
      && Touched(reg1.heap[o], end.heap[o])
      && (o !in children ==> end.heap[o].accessibleTools == reg1.heap[o].accessibleTools)
      && (o !in children && o != |reg1.heap| - 1 ==> end.heap[o] == reg1.heap[o])
      && (o in children && DistinctIds(reg1.heap, children) ==>
            reg1.heap[o].id in saved && saved[reg1.heap[o].id] == reg1.heap[o].accessibleTools)
  {
    var tempObj := |reg1.heap| - 1;
    OpeningAt(reg1, children, tempObj, objective, o);
    var start := Opening(reg1, children, tempObj, objective);
    var heap6 := start.0;
    var saved := start.1;
    var log := start.2;
    var parts := [tempObj] + children;
    PartsWithin(heap6, children, tempObj);
    var maxRounds := Min(maxTurns * |parts|, RoundCeiling);
    assert Session(reg1, servers, children, hostId, tempId, objective, maxTurns, script) ==
      (Discussion(Talk(heap6, servers, log, [], 0), parts, 0, 0, maxRounds, hostId, tempId, script), saved);
    DiscussionKeptAt(Talk(heap6, servers, log, [], 0), parts, 0, 0, maxRounds, hostId, tempId, script, o);
  }

  /** The closing: children get their saved maps and the closing message; nobody else is touched. */
  lemma ClosingAt(reg1: Registry, end: Talk, children: seq<nat>, saved: map<string, map<string, bool>>,
                  tempId: string, o: nat)
    requires |end.heap| == |reg1.heap| && Within(reg1.heap, children) && Distinct(children) && o < |end.heap|
    ensures var reg3 := Closing(reg1, end, children, saved, tempId);
      && Touched(end.heap[o], reg3.heap[o])
      && (o !in children ==> reg3.heap[o] == end.heap[o])
      && (o in children ==>
            && reg3.heap[o].accessibleTools == (if end.heap[o].id in saved then saved[end.heap[o].id] else map[])
            && reg3.heap[o].history == end.heap[o].history + [UserPrompt(ClosingMessage)])
  {
    RestoreAt(end.heap, children, saved, o);
    var heap7 := RestoreCapabilities(end.heap, children, saved);
    AppendToEffect(heap7, children, None, UserPrompt(ClosingMessage));
  }

  /** The registry with the clone of the host registered, as `call_meeting` builds it. */
  function WithClone(reg: Registry, hostId: string, prompt: Option<string>): (reg1: Registry)
    requires hostId in reg.agents && reg.agents[hostId] < |reg.heap|
    ensures |reg1.heap| == |reg.heap| + 1 && reg1.heap[..|reg.heap|] == reg.heap
    ensures reg1.heap[|reg.heap|].id == hostId + "_temp" && reg1.heap[|reg.heap|].children == []
  {
    var host := reg.heap[reg.agents[hostId]];
    Insert(reg, hostId + "_temp", TempHost(host, hostId + "_temp", MeetingPrompt(prompt)))
  }

  /** Object `o`'s history when the discussion of a meeting ends, before the closing message. */
  function SessionHistory(reg: Registry, servers: ServerTable, hostId: string, prompt: Option<string>,
                          objective: string, maxTurns: int, script: nat -> Reply, o: nat): seq<Message>
    requires Coherent(reg) && hostId in reg.agents && o <= |reg.heap|
  {
    var children := LinkObjs(reg.heap[reg.agents[hostId]].children);
    var reg1 := WithClone(reg, hostId, prompt);
    CloneApart(reg, hostId, prompt);
    Session(reg1, servers, children, hostId, hostId + "_temp", objective, maxTurns, script).0.heap[o].history
  }

  /**
   * Object `o` after a meeting: only its history grew and, for the clone, its capability map
   * changed; every old agent has its capability map back; an agent that is not a child is
   * unchanged; a child's history is its history at the end of the discussion followed by exactly
   * one closing message.
   */
  lemma MeetingAt(reg: Registry, servers: ServerTable, hostId: string, prompt: Option<string>,
                  objective: string, maxTurns: int, script: nat -> Reply, o: nat)
    requires Coherent(reg) && hostId in reg.agents && reg.heap[reg.agents[hostId]].children != []
    requires o <= |reg.heap|
    ensures var out := Meeting(reg, servers, hostId, prompt, objective, maxTurns, script);
      var children := LinkObjs(reg.heap[reg.agents[hostId]].children);
      var reg1 := WithClone(reg, hostId, prompt);
      && |out.reg.heap| == |reg.heap| + 1
      && Touched(reg1.heap[o], out.reg.heap[o])
      && (o < |reg.heap| ==> out.reg.heap[o].accessibleTools == reg.heap[o].accessibleTools)
      && (o < |reg.heap| && o !in children ==> out.reg.heap[o] == reg.heap[o])
      && (o in children ==>
            out.reg.heap[o].history
            == SessionHistory(reg, servers, hostId, prompt, objective, maxTurns, script, o) + [UserPrompt(ClosingMessage)])
  {
    var host := reg.heap[reg.agents[hostId]];
    var children := LinkObjs(host.children);
    var tempId := hostId + "_temp";
    var reg1 := WithClone(reg, hostId, prompt);
    CloneApart(reg, hostId, prompt);
    if o < |reg.heap| {
      assert reg1.heap[o] == reg.heap[o];
    }
    SessionAt(reg1, servers, children, hostId, tempId, objective, maxTurns, script, o);
    var end := Session(reg1, servers, children, hostId, tempId, objective, maxTurns, script).0;
    var saved := Session(reg1, servers, children, hostId, tempId, objective, maxTurns, script).1;
    assert Meeting(reg, servers, hostId, prompt, objective, maxTurns, script).reg == Closing(reg1, end, children, saved, tempId);
    ClosingAt(reg1, end, children, saved, tempId, o);
  }

  /** The host's children are distinct objects with distinct ids, none of them the clone. */
  lemma CloneApart(reg: Registry, hostId: string, prompt: Option<string>)
    requires Coherent(reg) && hostId in reg.agents
    ensures var children := LinkObjs(reg.heap[reg.agents[hostId]].children);
      var reg1 := WithClone(reg, hostId, prompt);
      && Within(reg1.heap, children) && |reg.heap| !in children && Distinct(children)
      && DistinctIds(reg1.heap, children)
  {
    var host := reg.heap[reg.agents[hostId]];
    var children := LinkObjs(host.children);
    var reg1 := WithClone(reg, hostId, prompt);
    assert LinksCoherent(reg.heap, host.children);
    ChildrenDistinct(reg.heap, host.children);
    assert Within(reg1.heap, children) && |reg.heap| !in children;
    assert DistinctIds(reg1.heap, children) by {
      forall i, j | 0 <= i < j < |children|
        ensures reg1.heap[children[i]].id != reg1.heap[children[j]].id
      {
        assert reg1.heap[children[i]] == reg.heap[children[i]];
        assert reg1.heap[children[j]] == reg.heap[children[j]];
      }
    }
  }

  /** Changing only histories and capability maps keeps the registry coherent. */
  lemma CoherentTouched(reg: Registry, heap: seq<Agent>)
    requires Coherent(reg) && |heap| == |reg.heap|
    requires forall o :: 0 <= o < |heap| ==> Touched(reg.heap[o], heap[o])
    ensures Coherent(Registry(heap, reg.agents, reg.order))
  {
    assert forall o :: 0 <= o < |heap| ==> heap[o].id == reg.heap[o].id && heap[o].children == reg.heap[o].children;
  }

  /**
   * After a meeting with at least one child, the clone's id is unregistered again (so a
   * registry without it is exactly as before, order included), the registry is still
   * coherent, and the clone stays behind as an unregistered object.
   */
  lemma MeetingCleansUp(reg: Registry, servers: ServerTable, hostId: string, prompt: Option<string>,
                        objective: string, maxTurns: int, script: nat -> Reply)
    requires Coherent(reg) && hostId in reg.agents && reg.heap[reg.agents[hostId]].children != []
    ensures var out := Meeting(reg, servers, hostId, prompt, objective, maxTurns, script);
      var tempId := hostId + "_temp";
      && |out.reg.heap| == |reg.heap| + 1
      && out.reg.agents == reg.agents - {tempId}
      && (forall x :: x in out.reg.order <==> x in reg.order && x != tempId)
      && (tempId !in reg.agents ==> out.reg.agents == reg.agents && out.reg.order == reg.order)
      && Coherent(out.reg)
  {
    var out := Meeting(reg, servers, hostId, prompt, objective, maxTurns, script);
    var host := reg.heap[reg.agents[hostId]];
    var tempId := hostId + "_temp";
    var reg1 := WithClone(reg, hostId, prompt);
    InsertCoherent(reg, tempId, TempHost(host, tempId, MeetingPrompt(prompt)));
    forall o | 0 <= o < |reg1.heap|
      ensures Touched(reg1.heap[o], out.reg.heap[o])
    {
      MeetingAt(reg, servers, hostId, prompt, objective, maxTurns, script, o);
    }
    var reg2 := Registry(out.reg.heap, reg1.agents, reg1.order);
    CoherentTouched(reg1, out.reg.heap);
    assert out.reg == Delete(reg2, tempId);
    DeleteCoherent(reg2, tempId);
    InsertThenDelete(reg, tempId, TempHost(host, tempId, MeetingPrompt(prompt)));
  }

  /**
   * After a meeting with at least one child, every agent that existed before differs only by a
   * longer history (the children have their capability maps back), agents that are not the
   * host's children are unchanged, and each child's history is its history at the end of the
   * discussion followed by exactly one closing message.
   */
  lemma MeetingRestores(reg: Registry, servers: ServerTable, hostId: string, prompt: Option<string>,
                        objective: string, maxTurns: int, script: nat -> Reply)
    requires Coherent(reg) && hostId in reg.agents && reg.heap[reg.agents[hostId]].children != []
    ensures var out := Meeting(reg, servers, hostId, prompt, objective, maxTurns, script);
      var children := LinkObjs(reg.heap[reg.agents[hostId]].children);
      && |out.reg.heap| == |reg.heap| + 1
      && (forall o :: 0 <= o < |reg.heap| ==>
            out.reg.heap[o] == reg.heap[o].(history := out.reg.heap[o].history) &&
            reg.heap[o].history <= out.reg.heap[o].history)
      && (forall o :: 0 <= o < |reg.heap| && o !in children ==> out.reg.heap[o] == reg.heap[o])
      && (forall o :: o in children ==>
            && o < |reg.heap|
            && out.reg.heap[o].history
               == SessionHistory(reg, servers, hostId, prompt, objective, maxTurns, script, o) + [UserPrompt(ClosingMessage)])
  {
    var out := Meeting(reg, servers, hostId, prompt, objective, maxTurns, script);
    var children := LinkObjs(reg.heap[reg.agents[hostId]].children);
    var reg1 := WithClone(reg, hostId, prompt);
    assert LinksCoherent(reg.heap, reg.heap[reg.agents[hostId]].children);
    CloneApart(reg, hostId, prompt);
    forall o | 0 <= o < |reg.heap|
      ensures out.reg.heap[o] == reg.heap[o].(history := out.reg.heap[o].history)
      ensures reg.heap[o].history <= out.reg.heap[o].history
      ensures o !in children ==> out.reg.heap[o] == reg.heap[o]
      ensures o in children ==>
        out.reg.heap[o].history
        == SessionHistory(reg, servers, hostId, prompt, objective, maxTurns, script, o) + [UserPrompt(ClosingMessage)]
    {
      MeetingAt(reg, servers, hostId, prompt, objective, maxTurns, script, o);
      assert reg1.heap[o] == reg.heap[o];
    }
  }

  /**
   * The log of a meeting: the clone's opening entry, then one entry per turn. The number of
   * turns is 0 when the budget `min(max_turns * len(participants), 15)` is not positive and
   * otherwise stays below the budget plus the number of participants; the meeting ends with
   * everybody ready or with the budget spent.
   */
  lemma SessionLog(reg1: Registry, servers: ServerTable, children: seq<nat>, hostId: string, tempId: string,
                   objective: string, maxTurns: int, script: nat -> Reply)
    requires |reg1.heap| > 0 && Within(reg1.heap, children)
    ensures var end := Session(reg1, servers, children, hostId, tempId, objective, maxTurns, script).0;
      var n := |children| + 1;
      var maxRounds := Min(maxTurns * n, RoundCeiling);
      var temp := reg1.heap[|reg1.heap| - 1];
      && |end.log| == end.turn + 1
      && end.log[0] == LogEntry(temp.name, temp.id, "Meeting initialized with objective: " + objective)
      && (maxRounds <= 0 ==> end.turn == 0)
      && (maxRounds > 0 ==> end.turn < maxRounds + n)
      && (|end.done| == n || end.turn >= maxRounds)
  {
    var tempObj := |reg1.heap| - 1;
    var heap6 := Opening(reg1, children, tempObj, objective).0;
    var log := Opening(reg1, children, tempObj, objective).2;
    var parts := [tempObj] + children;
    PartsWithin(heap6, children, tempObj);
    var maxRounds := Min(maxTurns * |parts|, RoundCeiling);
    var t := Talk(heap6, servers, log, [], 0);
    if maxRounds > 0 {
      DiscussionTurnBound(t, parts, 0, 0, maxRounds, hostId, tempId, script);
    }
    DiscussionEnd(t, parts, 0, 0, maxRounds, hostId, tempId, script);
  }

  /**
   * Turn order: entry `i >= 1` of the log was written by participant `(i - 1) % len(participants)`
   * (the clone first, then the children in dict order), under its name and logging id.
   */
  lemma SessionOrder(reg1: Registry, servers: ServerTable, children: seq<nat>, hostId: string, tempId: string,
                     objective: string, maxTurns: int, script: nat -> Reply)
    requires |reg1.heap| > 0 && Within(reg1.heap, children) && Distinct(children) && |reg1.heap| - 1 !in children
    ensures var end := Session(reg1, servers, children, hostId, tempId, objective, maxTurns, script).0;
      var parts := [|reg1.heap| - 1] + children;
      Within(reg1.heap, parts) &&
      forall i :: 1 <= i < |end.log| ==> SaidBy(end.log[i], reg1.heap[parts[(i - 1) % |parts|]], hostId, tempId)
  {
    var tempObj := |reg1.heap| - 1;
    var heap6 := Opening(reg1, children, tempObj, objective).0;
    var log := Opening(reg1, children, tempObj, objective).2;
    var parts := [tempObj] + children;
    PartsWithin(heap6, children, tempObj);
    PartsWithin(reg1.heap, children, tempObj);
    var maxRounds := Min(maxTurns * |parts|, RoundCeiling);
    var t := Talk(heap6, servers, log, [], 0);
    var end := Discussion(t, parts, 0, 0, maxRounds, hostId, tempId, script);
    assert Session(reg1, servers, children, hostId, tempId, objective, maxTurns, script).0 == end;
    DiscussionInOrder(t, parts, 0, 0, maxRounds, hostId, tempId, script);
    assert forall j :: 0 <= j < |parts| ==>
      heap6[parts[j]].name == reg1.heap[parts[j]].name && heap6[parts[j]].id == reg1.heap[parts[j]].id
    by {
      forall j | 0 <= j < |parts|
        ensures heap6[parts[j]].name == reg1.heap[parts[j]].name && heap6[parts[j]].id == reg1.heap[parts[j]].id
      {
        OpeningAt(reg1, children, tempObj, objective, parts[j]);
      }
    }
    RotationByMod(heap6, reg1.heap, end.log, parts, hostId, tempId);
  }

  /** A rotation from the second entry on, read with `%`, carried over to agents with the same names and ids. */
  lemma RotationByMod(h: seq<Agent>, h': seq<Agent>, log: seq<LogEntry>, parts: seq<nat>, hostId: string, tempId: string)
    requires |parts| > 0 && Within(h, parts) && |h'| == |h|
    requires Rotation(h, 1, log, parts, 0, hostId, tempId)
    requires forall j :: 0 <= j < |parts| ==> h[parts[j]].name == h'[parts[j]].name && h[parts[j]].id == h'[parts[j]].id
    ensures forall i :: 1 <= i < |log| ==> SaidBy(log[i], h'[parts[(i - 1) % |parts|]], hostId, tempId)
  {
    forall i | 1 <= i < |log|
      ensures SaidBy(log[i], h'[parts[(i - 1) % |parts|]], hostId, tempId)
    {
      PosIsMod(i - 1, |parts|);
      assert SaidBy(log[i], h[parts[Pos(i - 1, |parts|)]], hostId, tempId);
    }
  }
}
