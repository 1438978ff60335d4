/**
 * The loops `call_meeting` of backend/agency.py runs over the participants, as methods proved
 * against the functions of `Meetings` that specify them.
 */
module MeetingSteps {
  import opened Wrappers
  import opened Agents
  import opened Meetings

  /** `for a in objs: if a.id != except: a.message_history.append(msg)`. */
  method Broadcast(heap: seq<Agent>, objs: seq<nat>, except: Option<string>, msg: Message) returns (h: seq<Agent>)
    requires Within(heap, objs)
    ensures h == AppendTo(heap, objs, except, msg)
  {
    h := heap;
    var i := 0;
    while i < |objs|
      invariant i <= |objs| && |h| == |heap|
      invariant AppendTo(h, objs[i..], except, msg) == AppendTo(heap, objs, except, msg)
    {
      assert objs[i..][0] == objs[i] && objs[i..][1..] == objs[i + 1..];
      if Some(h[objs[i]].id) != except {
        h := Append(h, objs[i], [msg]);
      }
      i := i + 1;
    }
    assert objs[i..] == [];
  }

  /** The loop that saves each child's capability map under its id and empties it. */
  method StripAll(heap: seq<Agent>, objs: seq<nat>) returns (h: seq<Agent>, saved: map<string, map<string, bool>>)
    requires Within(heap, objs)
    ensures h == StripCapabilities(heap, objs, map[]).0
    ensures saved == StripCapabilities(heap, objs, map[]).1
  {
    h, saved := heap, map[];
    ghost var target := StripCapabilities(heap, objs, map[]);
    var i := 0;
    while i < |objs|
      invariant i <= |objs| && |h| == |heap|
      invariant StripCapabilities(h, objs[i..], saved) == target
    {
      assert objs[i..][0] == objs[i] && objs[i..][1..] == objs[i + 1..];
      var a := h[objs[i]];
      saved := saved[a.id := a.accessibleTools];
      h := h[objs[i] := a.(accessibleTools := map[])];
      i := i + 1;
    }
    assert objs[i..] == [];
  }

  /** `child.accessible_tools = original_accessible_tools.get(child.id, {})` for each child. */
  method RestoreAll(heap: seq<Agent>, objs: seq<nat>, saved: map<string, map<string, bool>>) returns (h: seq<Agent>)
    requires Within(heap, objs)
    ensures h == RestoreCapabilities(heap, objs, saved)
  {
    h := heap;
    var i := 0;
    while i < |objs|
      invariant i <= |objs| && |h| == |heap|
      invariant RestoreCapabilities(h, objs[i..], saved) == RestoreCapabilities(heap, objs, saved)
    {
      assert objs[i..][0] == objs[i] && objs[i..][1..] == objs[i + 1..];
      var a := h[objs[i]];
      var caps := if a.id in saved then saved[a.id] else map[];
      h := h[objs[i] := a.(accessibleTools := caps)];
      i := i + 1;
    }
    assert objs[i..] == [];
  }

  /**
   * From the registration of the clone (object `tempObj`) to the first turn: the children lose
   * their capabilities, the log gets its first entry, the clone and the children the opening
   * message, the children their instructions, then the clone its own.
   */
  method Open(reg1: Registry, children: seq<nat>, tempObj: nat, objective: string)
    returns (heap: seq<Agent>, saved: map<string, map<string, bool>>, log: seq<LogEntry>)
    requires Within(reg1.heap, children) && tempObj < |reg1.heap|
    ensures heap == Opening(reg1, children, tempObj, objective).0
    ensures saved == Opening(reg1, children, tempObj, objective).1
    ensures log == Opening(reg1, children, tempObj, objective).2
  {
    heap, saved := StripAll(reg1.heap, children);
    var init := "Meeting initialized with objective: " + objective;
    log := [LogEntry(reg1.heap[tempObj].name, reg1.heap[tempObj].id, init)];
    heap := Append(heap, tempObj, [UserPrompt(init)]);
    heap := Broadcast(heap, children, None, UserPrompt(init));
    heap := Broadcast(heap, children, None, Instructions(false));
    heap := Append(heap, tempObj, [Instructions(true)]);
  }

  /**
   * After the turn loop, which ended in `end`: the children get their capability maps back and
   * the closing message, and the clone's id is unregistered when it is still registered.
   */
  method Close(reg1: Registry, end: Talk, children: seq<nat>, saved: map<string, map<string, bool>>, tempId: string)
    returns (reg3: Registry)
    requires |end.heap| == |reg1.heap| && Within(reg1.heap, children)
    ensures reg3 == Closing(reg1, end, children, saved, tempId)
  {
    var heap := RestoreAll(end.heap, children, saved);
    heap := Broadcast(heap, children, None, UserPrompt(ClosingMessage));
    reg3 := Registry(heap, reg1.agents, reg1.order);
    if tempId in reg3.agents {
      reg3 := Delete(reg3, tempId);
    }
  }
}
