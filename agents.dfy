/**
 * The agent records of backend/agency.py and the object heap they live in.
 *
 * Python agents are objects: the registry `agency.agents`, every `children` dict and
 * `agency.main_agent` hold references to them, and an object removed from the registry
 * stays reachable through the dicts that still hold it. The model keeps that identity:
 * a `heap` of agent records indexed by object number, a registry from id to object number,
 * and `children` entries that carry the object number they refer to.
 */
module Agents {
  import opened Wrappers
  import opened Text

  /** One entry of an agent's message history. */
  datatype Message =
    | SystemPrompt(content: string)
    | UserPrompt(content: string)
    | ModelResponse(content: string)
      /**
       * The user prompt with the fixed meeting instructions that `call_meeting` gives the host
       * (`forHost`) or a child; its text is `Meetings.InstructionsText(forHost)`.
       */
    | Instructions(forHost: bool)

  /** One entry of a `children` dict: its key and the agent object stored under it. */
  datatype Link = Link(id: string, obj: nat)

  /** The fields of an `Agent` object that the bookkeeping reads or writes. */
  datatype Agent = Agent(
    id: string,
    name: string,
    provider: string,
    systemPrompt: string,
    tools: seq<string>,
    accessibleTools: map<string, bool>,
    history: seq<Message>,
    parentId: Option<string>,
    children: seq<Link>,
    mcpServerIds: seq<string>)

  /** What one backend run yields: the new messages and the reply text, or the error it raised. */
  datatype Reply = Answered(newMessages: seq<Message>, data: string) | Failed(error: string)

  /** The names of the four tools of `all_tools`. */
  const CreateNewAgentTool := "create_new_agent"
  const MessageAgentTool := "message_agent"
  const CallMeetingTool := "call_meeting"
  const InternalMonologueTool := "internal_monologue"
  const AllTools: seq<string> := [CreateNewAgentTool, MessageAgentTool, CallMeetingTool, InternalMonologueTool]

  /** `Agent.__init__`: the history starts with the system prompt; no parent, no children. */
  function NewAgent(id: string, name: string, provider: string, systemPrompt: string,
                    tools: seq<string>, accessible: map<string, bool>, mcpServerIds: seq<string>): Agent
  {
    Agent(id, name, provider, systemPrompt, tools, accessible, [SystemPrompt(systemPrompt)], None, [], mcpServerIds)
  }

  /** `accessible_tools.get(name, False)`. */
  predicate Accessible(a: Agent, name: string) {
    name in a.accessibleTools && a.accessibleTools[name]
  }

  /** `curr_breadth`: the number of entries of the `children` dict. */
  function Breadth(a: Agent): nat {
    |a.children|
  }

  /** `save_message_history`: object `o`'s history extended by `msgs`. */
  function Append(heap: seq<Agent>, o: nat, msgs: seq<Message>): (h: seq<Agent>)
    requires o < |heap|
    ensures |h| == |heap|
  {
    heap[o := heap[o].(history := heap[o].history + msgs)]
  }

  // ---------------------------------------------------------------------------
  // Ordered dicts of children

  function LinkIds(ls: seq<Link>): (ids: seq<string>)
    ensures |ids| == |ls|
    ensures forall i :: 0 <= i < |ls| ==> ids[i] == ls[i].id
  {
    seq(|ls|, i requires 0 <= i < |ls| => ls[i].id)
  }

  function LinkObjs(ls: seq<Link>): (objs: seq<nat>)
    ensures |objs| == |ls|
    ensures forall i :: 0 <= i < |ls| ==> objs[i] == ls[i].obj
  {
    seq(|ls|, i requires 0 <= i < |ls| => ls[i].obj)
  }

  predicate HasLink(ls: seq<Link>, id: string) {
    exists i :: 0 <= i < |ls| && ls[i].id == id
  }

  /** Dict keys are unique. */
  predicate UniqueIds(ls: seq<Link>) {
    forall i, j :: 0 <= i < j < |ls| ==> ls[i].id != ls[j].id
  }

  /** `d[id] = obj`: an existing key keeps its place and gets the new value; a new key goes last. */
  function SetLink(ls: seq<Link>, id: string, obj: nat): (r: seq<Link>)
    ensures !HasLink(ls, id) ==> r == ls + [Link(id, obj)]
    ensures HasLink(ls, id) && UniqueIds(ls) ==>
      |r| == |ls| && forall i :: 0 <= i < |ls| ==> r[i] == (if ls[i].id == id then Link(id, obj) else ls[i])
  {
    if ls == [] then [Link(id, obj)]
    else if ls[0].id == id then [Link(id, obj)] + ls[1..]
    else
      assert HasLink(ls, id) ==> HasLink(ls[1..], id);
      assert UniqueIds(ls) ==> UniqueIds(ls[1..]);
      [ls[0]] + SetLink(ls[1..], id, obj)
  }

  /** The entries of `ls` other than the one under `id`. */
  function Without(ls: seq<Link>, id: string): (r: seq<Link>)
    ensures forall l :: l in r <==> l in ls && l.id != id
    decreases |ls|
  {
    if ls == [] then []
    else
      var rest := Without(ls[1..], id);
      if ls[0].id == id then rest else [ls[0]] + rest
  }

  /** Deleting an absent key changes nothing. */
  lemma {:induction false} WithoutAbsent(ls: seq<Link>, id: string)
    requires !HasLink(ls, id)
    ensures Without(ls, id) == ls
    decreases |ls|
  {
    if ls != [] {
      assert ls[0].id != id;
      assert !HasLink(ls[1..], id) by {
        forall i | 0 <= i < |ls[1..]|
          ensures ls[1..][i].id != id
        {
          assert ls[1..][i] == ls[i + 1];
        }
      }
      WithoutAbsent(ls[1..], id);
      assert [ls[0]] + ls[1..] == ls;
    }
  }

  /** Deleting a key keeps the keys unique. */
  lemma {:induction false} WithoutUnique(ls: seq<Link>, id: string)
    requires UniqueIds(ls)
    ensures UniqueIds(Without(ls, id))
    decreases |ls|
  {
    if ls != [] {
      assert UniqueIds(ls[1..]) by {
        forall i, j | 0 <= i < j < |ls[1..]|
          ensures ls[1..][i].id != ls[1..][j].id
        {
          assert ls[1..][i] == ls[i + 1] && ls[1..][j] == ls[j + 1];
        }
      }
      WithoutUnique(ls[1..], id);
      var rest := Without(ls[1..], id);
      if ls[0].id != id {
        forall j | 0 <= j < |rest|
          ensures rest[j].id != ls[0].id
        {
          assert rest[j] in ls[1..];
          var m :| 0 <= m < |ls[1..]| && ls[1..][m] == rest[j];
          assert ls[m + 1] == rest[j];
        }
      }
    }
  }

  /** Deleting a present key of a dict removes exactly one entry. */
  lemma {:induction false} WithoutLength(ls: seq<Link>, id: string)
    requires UniqueIds(ls) && HasLink(ls, id)
    ensures |Without(ls, id)| == |ls| - 1
    decreases |ls|
  {
    assert UniqueIds(ls[1..]) by {
      forall i, j | 0 <= i < j < |ls[1..]|
        ensures ls[1..][i].id != ls[1..][j].id
      {
        assert ls[1..][i] == ls[i + 1] && ls[1..][j] == ls[j + 1];
      }
    }
    if ls[0].id == id {
      assert !HasLink(ls[1..], id) by {
        forall i | 0 <= i < |ls[1..]|
          ensures ls[1..][i].id != id
        {
          assert ls[1..][i] == ls[i + 1];
        }
      }
      WithoutAbsent(ls[1..], id);
    } else {
      var i :| 0 <= i < |ls| && ls[i].id == id;
      assert ls[1..][i - 1] == ls[i];
      WithoutLength(ls[1..], id);
    }
  }

  /** `del d[id]`: `None` when the key is absent (Python raises `KeyError`). */
  function DelLink(ls: seq<Link>, id: string): (r: Option<seq<Link>>)
    ensures r.None? <==> !HasLink(ls, id)
    ensures r.Some? ==> r.value == Without(ls, id)
  {
    if HasLink(ls, id) then Some(Without(ls, id)) else None
  }

  // ---------------------------------------------------------------------------
  // The heap

  /** Every registry entry names an object of the heap. */
  predicate RegistryInHeap(heap: seq<Agent>, agents: map<string, nat>) {
    forall k :: k in agents ==> agents[k] < |heap|
  }

  /** The registry `agency.agents` (ids in insertion order) and the agent objects of the heap. */
  datatype Registry = Registry(heap: seq<Agent>, agents: map<string, nat>, order: seq<string>)

  /** A `children` dict whose keys are unique and whose objects exist and carry their key as id. */
  predicate LinksCoherent(heap: seq<Agent>, ls: seq<Link>) {
    UniqueIds(ls) && forall i :: 0 <= i < |ls| ==> ls[i].obj < |heap| && heap[ls[i].obj].id == ls[i].id
  }

  /**
   * What every operation on the registry keeps: `order` lists the registered ids once each,
   * every id names an object carrying that id, and every `children` dict is coherent.
   */
  ghost predicate Coherent(reg: Registry) {
    && NoDuplicates(reg.order)
    && (forall k :: k in reg.agents <==> k in reg.order)
    && (forall k :: k in reg.agents ==> reg.agents[k] < |reg.heap| && reg.heap[reg.agents[k]].id == k)
    && (forall o :: 0 <= o < |reg.heap| ==> LinksCoherent(reg.heap, reg.heap[o].children))
  }

  /** `agents[id] = a` for a new object `a`: an existing id keeps its place in the order. */
  function Insert(reg: Registry, id: string, a: Agent): (r: Registry)
    ensures r.heap == reg.heap + [a] && r.agents == reg.agents[id := |reg.heap|]
    ensures r.order == if id in reg.agents then reg.order else reg.order + [id]
  {
    Registry(reg.heap + [a], reg.agents[id := |reg.heap|], if id in reg.agents then reg.order else reg.order + [id])
  }

  /** `s` without `x`, order kept. */
  function Remove(s: seq<string>, x: string): (r: seq<string>)
    ensures forall y :: y in r <==> y in s && y != x
    ensures NoDuplicates(s) ==> NoDuplicates(r)
    ensures |r| <= |s|
  {
    if s == [] then []
    else
      var rest := Remove(s[1..], x);
      assert NoDuplicates(s) ==> NoDuplicates(s[1..]) && s[0] !in s[1..];
      if s[0] == x then rest else [s[0]] + rest
  }

  /** Removing an id that was just appended to a list without it gives the list back. */
  lemma {:induction false} RemoveAppended(s: seq<string>, x: string)
    requires x !in s
    ensures Remove(s + [x], x) == s
  {
    if s == [] {
      assert [x][1..] == [];
    } else {
      assert (s + [x])[1..] == s[1..] + [x];
      RemoveAppended(s[1..], x);
    }
  }

  /** `del agents[id]`. */
  function Delete(reg: Registry, id: string): (r: Registry)
    ensures r.heap == reg.heap && r.agents == reg.agents - {id}
    ensures forall k :: k in r.order <==> k in reg.order && k != id
  {
    Registry(reg.heap, reg.agents - {id}, Remove(reg.order, id))
  }

  /** Deleting an id right after registering it leaves the other ids as they were; a new id leaves no trace. */
  lemma InsertThenDelete(reg: Registry, id: string, a: Agent)
    requires Coherent(reg)
    ensures Delete(Insert(reg, id, a), id).agents == reg.agents - {id}
    ensures id !in reg.agents ==> Delete(Insert(reg, id, a), id).agents == reg.agents
    ensures id !in reg.agents ==> Delete(Insert(reg, id, a), id).order == reg.order
  {
    assert reg.agents[id := |reg.heap|] - {id} == reg.agents - {id};
    if id !in reg.agents {
      assert reg.agents - {id} == reg.agents;
      assert id !in reg.order;
      RemoveAppended(reg.order, id);
    }
  }

  /** Setting a key of a coherent dict to an object carrying that key keeps the dict coherent. */
  lemma SetLinkCoherent(heap: seq<Agent>, ls: seq<Link>, id: string, obj: nat)
    requires LinksCoherent(heap, ls) && obj < |heap| && heap[obj].id == id
    ensures LinksCoherent(heap, SetLink(ls, id, obj))
  {
    var r := SetLink(ls, id, obj);
    if !HasLink(ls, id) {
      forall i, j | 0 <= i < j < |r|
        ensures r[i].id != r[j].id
      {
        if j == |ls| {
          assert r[i] == ls[i];
        } else {
          assert r[i] == ls[i] && r[j] == ls[j];
        }
      }
    }
  }

  /** Replacing an object by one with the same id and a coherent `children` dict keeps the registry coherent. */
  lemma ReplaceAgentCoherent(reg: Registry, p: nat, a: Agent)
    requires Coherent(reg) && p < |reg.heap| && a.id == reg.heap[p].id && LinksCoherent(reg.heap, a.children)
    ensures Coherent(reg.(heap := reg.heap[p := a]))
  {
    var heap := reg.heap[p := a];
    forall o | 0 <= o < |heap|
      ensures LinksCoherent(heap, heap[o].children)
    {
      assert LinksCoherent(reg.heap, heap[o].children);
    }
  }

  /** Registering a new object under its own id, with a coherent `children` dict, keeps `Coherent`. */
  lemma InsertCoherent(reg: Registry, id: string, a: Agent)
    requires Coherent(reg) && a.id == id && LinksCoherent(reg.heap, a.children)
    ensures Coherent(Insert(reg, id, a))
  {
    var r := Insert(reg, id, a);
    forall o | 0 <= o < |r.heap|
      ensures LinksCoherent(r.heap, r.heap[o].children)
    {
      var ls := r.heap[o].children;
      assert LinksCoherent(reg.heap, ls);
    }
  }

  lemma DeleteCoherent(reg: Registry, id: string)
    requires Coherent(reg)
    ensures Coherent(Delete(reg, id))
  {
  }

  /**
   * `curr_depth` of object `o`: 0 without a parent, otherwise one more than the depth of
   * the registry's agent under the parent id. `unvisited` holds the ids not yet looked up;
   * looking one up twice means the lambda recurses forever.
   */
  function DepthWithin(heap: seq<Agent>, agents: map<string, nat>, o: nat, unvisited: set<string>): Result<nat, Raised>
    requires RegistryInHeap(heap, agents) && o < |heap|
    decreases |unvisited|
  {
    match heap[o].parentId
    case None => Ok(0)
    case Some(p) =>
      if p !in agents then Err(KeyError(p))
      else if p !in unvisited then Err(RuntimeError("maximum recursion depth exceeded"))
      else match DepthWithin(heap, agents, agents[p], unvisited - {p})
        case Ok(d) => Ok(d + 1)
        case Err(e) => Err(e)
  }

  /** `agent.curr_depth()`: `Err` when a parent id is missing (`KeyError`) or the parents form a cycle. */
  function Depth(heap: seq<Agent>, agents: map<string, nat>, o: nat): Result<nat, Raised>
    requires RegistryInHeap(heap, agents) && o < |heap|
  {
    DepthWithin(heap, agents, o, agents.Keys)
  }

  /** Revisiting an id means the walk fails, so more unvisited ids never change a success. */
  lemma {:induction false} DepthWithinEnlarge(heap: seq<Agent>, agents: map<string, nat>, o: nat, u: set<string>, v: set<string>)
    requires RegistryInHeap(heap, agents) && o < |heap|
    requires u <= v && DepthWithin(heap, agents, o, u).Ok?
    ensures DepthWithin(heap, agents, o, v) == DepthWithin(heap, agents, o, u)
    decreases |u|
  {
    if heap[o].parentId.Some? {
      var p := heap[o].parentId.value;
      DepthWithinEnlarge(heap, agents, agents[p], u - {p}, v - {p});
    }
  }

  /** Looking up `y` would revisit an id (or miss one), so a successful walk never looks it up. */
  predicate LookupFails(heap: seq<Agent>, agents: map<string, nat>, y: string, u: set<string>)
    requires RegistryInHeap(heap, agents) && y in agents
  {
    heap[agents[y]].parentId.Some? &&
    var z := heap[agents[y]].parentId.value;
    z !in agents || z !in u - {y}
  }

  lemma {:induction false} DepthWithinShrink(heap: seq<Agent>, agents: map<string, nat>, o: nat, u: set<string>, y: string)
    requires RegistryInHeap(heap, agents) && o < |heap| && y in agents
    requires y in u && LookupFails(heap, agents, y, u)
    requires DepthWithin(heap, agents, o, u).Ok?
    ensures DepthWithin(heap, agents, o, u - {y}) == DepthWithin(heap, agents, o, u)
    decreases |u|
  {
    if heap[o].parentId.Some? {
      var q := heap[o].parentId.value;
      if q == y {
        assert false;
      }
      assert (u - {q}) - {y} == (u - {y}) - {q};
      DepthWithinShrink(heap, agents, agents[q], u - {q}, y);
    }
  }

  /**
   * The depth recursion of `curr_depth`: an object whose parent id is registered has a depth
   * exactly when that parent does, and then it is one more.
   */
  lemma DepthOfChild(heap: seq<Agent>, agents: map<string, nat>, c: nat, p: string)
    requires RegistryInHeap(heap, agents) && c < |heap|
    requires heap[c].parentId == Some(p) && p in agents
    ensures Depth(heap, agents, c).Ok? <==> Depth(heap, agents, agents[p]).Ok?
    ensures Depth(heap, agents, c).Ok? ==> Depth(heap, agents, c).value == Depth(heap, agents, agents[p]).value + 1
  {
    var k := agents.Keys;
    var x := agents[p];
    assert Depth(heap, agents, c) == match DepthWithin(heap, agents, x, k - {p})
      case Ok(d) => Ok(d + 1) case Err(e) => Err(e);
    if Depth(heap, agents, c).Ok? {
      DepthWithinEnlarge(heap, agents, x, k - {p}, k);
    }
    if Depth(heap, agents, x).Ok? && heap[x].parentId.Some? {
      // the walk from the parent never comes back to `p`
      var q := heap[x].parentId.value;
      if q == p {
        assert false;
      }
      assert (k - {q}) - {p} == (k - {p}) - {q};
      DepthWithinShrink(heap, agents, agents[q], k - {q}, p);
      assert DepthWithin(heap, agents, x, k - {p}) == DepthWithin(heap, agents, x, k);
    }
  }

  /** An agent without a parent id, such as every agent `create_new_agent` makes, has depth 0. */
  lemma OrphanDepthZero(heap: seq<Agent>, agents: map<string, nat>, o: nat)
    requires RegistryInHeap(heap, agents) && o < |heap| && heap[o].parentId.None?
    ensures Depth(heap, agents, o) == Ok(0)
  {
  }
}
