/**
 * What `call_meeting` guarantees, proved about the functions of module `Meetings`:
 * broadcasts reach exactly the other participants, turns follow the join order, the turn
 * budget bounds the meeting, and the children's capabilities and the registry are restored.
 */
module MeetingProperties {
  import opened Wrappers
  import opened Text
  import opened Agents
  import opened Servers
  import opened Meetings

  /** Agent `o` differs between the two heaps in its history only, which `h'` extends. */
  ghost predicate KeptAt(h: seq<Agent>, h': seq<Agent>, o: nat)
    requires o < |h| && |h'| == |h|
  {
    h'[o] == h[o].(history := h'[o].history) && h[o].history <= h'[o].history
  }

  /** Only histories differ between the two heaps, and each history of `h` is a prefix of the one in `h'`. */
  ghost predicate Grown(h: seq<Agent>, h': seq<Agent>) {
    |h'| == |h| && forall o :: 0 <= o < |h| ==> KeptAt(h, h', o)
  }

  /** Log entry `e` was written for speaker `a`. */
  ghost predicate SaidBy(e: LogEntry, a: Agent, hostId: string, tempId: string) {
    e.agentName == a.name && e.agentId == LogId(a, hostId, tempId)
  }

  lemma {:induction false} AppendToEffect(heap: seq<Agent>, objs: seq<nat>, except: Option<string>, msg: Message)
    requires Within(heap, objs) && Distinct(objs)
    ensures forall o :: 0 <= o < |heap| ==>
      AppendTo(heap, objs, except, msg)[o] ==
        if o in objs && Some(heap[o].id) != except then heap[o].(history := heap[o].history + [msg]) else heap[o]
    decreases |objs|
  {
    if objs != [] {
      var next := if Some(heap[objs[0]].id) != except then Append(heap, objs[0], [msg]) else heap;
      assert Distinct(objs[1..]);
      assert objs[0] !in objs[1..];
      AppendToEffect(next, objs[1..], except, msg);
    }
  }

  /**
   * One turn: on success the speaker's history gets the backend's new messages, every other
   * participant (by id) gets the broadcast, the log gets the stripped reply, and the speaker is
   * ready iff the reply carries a ready phrase; on failure only the log, the ready set and the
   * servers change.
   */
  lemma SpeakEffect(t: Talk, parts: seq<nat>, k: nat, hostId: string, tempId: string, script: nat -> Reply)
    requires k < |parts| && Within(t.heap, parts) && Distinct(parts)
    ensures var t' := Speak(t, parts, k, hostId, tempId, script);
      var a := t.heap[parts[k]];
      && t'.servers == StartAll(t.servers, a.mcpServerIds)
      && t'.turn == t.turn + 1
      && Grown(t.heap, t'.heap)
      && match script(t.turn)
        case Answered(newMessages, data) =>
          && t'.log == t.log + [LogEntry(a.name, LogId(a, hostId, tempId), Strip(data))]
          && (a.id in t'.done <==> a.id in t.done || Signals(Strip(data)))
          && (forall x :: x != a.id ==> (x in t'.done <==> x in t.done))
          && t'.heap[parts[k]].history == a.history + newMessages
          && forall o :: 0 <= o < |t.heap| && o != parts[k] ==>
               t'.heap[o].history ==
                 if o in parts && t.heap[o].id != a.id
                 then t.heap[o].history + [Heard(a, LogId(a, hostId, tempId), Strip(data))]
                 else t.heap[o].history
        case Failed(error) =>
          && t'.log == t.log + [LogEntry(a.name, LogId(a, hostId, tempId), "Error during response: " + error)]
          && t'.done == Mark(t.done, a.id)
          && t'.heap == t.heap
  {
    var a := t.heap[parts[k]];
    if script(t.turn).Answered? {
      var msg := Heard(a, LogId(a, hostId, tempId), Strip(script(t.turn).data));
      var spoken := Append(t.heap, parts[k], script(t.turn).newMessages);
      AppendToEffect(spoken, parts, Some(a.id), msg);
    }
    SpeakGrown(t, parts, k, hostId, tempId, script);
  }

  lemma {:induction false} AppendToKeptAt(heap: seq<Agent>, objs: seq<nat>, except: Option<string>, msg: Message, o: nat)
    requires Within(heap, objs) && o < |heap|
    ensures KeptAt(heap, AppendTo(heap, objs, except, msg), o)
    ensures o !in objs ==> AppendTo(heap, objs, except, msg)[o] == heap[o]
    decreases |objs|
  {
    if objs != [] {
      var next := if Some(heap[objs[0]].id) != except then Append(heap, objs[0], [msg]) else heap;
      AppendToKeptAt(next, objs[1..], except, msg, o);
    }
  }

  /** A turn appends to histories and changes nothing else about any agent. */
  lemma SpeakKeptAt(t: Talk, parts: seq<nat>, k: nat, hostId: string, tempId: string, script: nat -> Reply, o: nat)
    requires k < |parts| && Within(t.heap, parts) && o < |t.heap|
    ensures KeptAt(t.heap, Speak(t, parts, k, hostId, tempId, script).heap, o)
    ensures o !in parts ==> Speak(t, parts, k, hostId, tempId, script).heap[o] == t.heap[o]
  {
    var a := t.heap[parts[k]];
    if script(t.turn).Answered? {
      var msg := Heard(a, LogId(a, hostId, tempId), Strip(script(t.turn).data));
      var spoken := Append(t.heap, parts[k], script(t.turn).newMessages);
      AppendToKeptAt(spoken, parts, Some(a.id), msg, o);
    }
  }

  lemma SpeakGrown(t: Talk, parts: seq<nat>, k: nat, hostId: string, tempId: string, script: nat -> Reply)
    requires k < |parts| && Within(t.heap, parts)
    ensures Grown(t.heap, Speak(t, parts, k, hostId, tempId, script).heap)
  {
    forall o | 0 <= o < |t.heap|
      ensures KeptAt(t.heap, Speak(t, parts, k, hostId, tempId, script).heap, o)
    {
      SpeakKeptAt(t, parts, k, hostId, tempId, script, o);
    }
  }

  lemma {:induction false} DiscussionKeptAt(t: Talk, parts: seq<nat>, r: nat, k: nat, maxRounds: int, hostId: string,
                                            tempId: string, script: nat -> Reply, o: nat)
    requires k <= |parts| && Within(t.heap, parts) && (k == 0 || r < maxRounds) && o < |t.heap|
    ensures KeptAt(t.heap, Discussion(t, parts, r, k, maxRounds, hostId, tempId, script).heap, o)
    ensures o !in parts ==> Discussion(t, parts, r, k, maxRounds, hostId, tempId, script).heap[o] == t.heap[o]
    decreases maxRounds - r, |parts| - k, 2
  {
    if k == 0 && (r >= maxRounds || |t.done| == |parts|) {
    } else if k == |parts| {
      NextRoundKeptAt(t, parts, r, maxRounds, hostId, tempId, script, o);
    } else {
      TurnKeptAt(t, parts, r, k, maxRounds, hostId, tempId, script, o);
    }
  }

  lemma {:induction false} TurnKeptAt(t: Talk, parts: seq<nat>, r: nat, k: nat, maxRounds: int, hostId: string,
                                      tempId: string, script: nat -> Reply, o: nat)
    requires k < |parts| && Within(t.heap, parts) && r < maxRounds && o < |t.heap|
    ensures KeptAt(t.heap, Turn(t, parts, r, k, maxRounds, hostId, tempId, script).heap, o)
    ensures o !in parts ==> Turn(t, parts, r, k, maxRounds, hostId, tempId, script).heap[o] == t.heap[o]
    decreases maxRounds - r, |parts| - k, 1
  {
    var next := Speak(t, parts, k, hostId, tempId, script);
    SpeakKeptAt(t, parts, k, hostId, tempId, script, o);
    if script(t.turn).Answered? && |next.done| == |parts| {
      NextRoundKeptAt(next, parts, r, maxRounds, hostId, tempId, script, o);
    } else {
      DiscussionKeptAt(next, parts, r, k + 1, maxRounds, hostId, tempId, script, o);
    }
  }

  lemma {:induction false} NextRoundKeptAt(t: Talk, parts: seq<nat>, r: nat, maxRounds: int, hostId: string,
                                           tempId: string, script: nat -> Reply, o: nat)
    requires Within(t.heap, parts) && r < maxRounds && o < |t.heap|
    ensures KeptAt(t.heap, NextRound(t, parts, r, maxRounds, hostId, tempId, script).heap, o)
    ensures o !in parts ==> NextRound(t, parts, r, maxRounds, hostId, tempId, script).heap[o] == t.heap[o]
    decreases maxRounds - r, 0, 0
  {
    if t.turn < maxRounds {
      DiscussionKeptAt(t, parts, r + 1, 0, maxRounds, hostId, tempId, script, o);
    }
  }

  /** The meeting loop changes only histories, and only by appending. */
  lemma DiscussionShape(t: Talk, parts: seq<nat>, r: nat, k: nat, maxRounds: int, hostId: string,
                        tempId: string, script: nat -> Reply)
    requires k <= |parts| && Within(t.heap, parts) && (k == 0 || r < maxRounds)
    ensures Grown(t.heap, Discussion(t, parts, r, k, maxRounds, hostId, tempId, script).heap)
  {
    forall o | 0 <= o < |t.heap|
      ensures KeptAt(t.heap, Discussion(t, parts, r, k, maxRounds, hostId, tempId, script).heap, o)
    {
      DiscussionKeptAt(t, parts, r, k, maxRounds, hostId, tempId, script, o);
    }
  }

  /** The position of turn `x` within its round of `n` turns, by repeated subtraction. */
  function Pos(x: nat, n: nat): (p: nat)
    requires n > 0
    ensures p < n
    decreases x
  {
    if x < n then x else Pos(x - n, n)
  }

  lemma {:induction false} PosAligned(a: nat, j: nat, n: nat)
    requires n > 0 && Pos(a, n) == 0 && j < n
    ensures Pos(a + j, n) == j
    decreases a
  {
    if a >= n {
      PosAligned(a - n, j, n);
      assert a + j - n == (a - n) + j;
    }
  }

  lemma MulAtLeast(d: int, n: int)
    requires d >= 1 && n > 0
    ensures d * n >= n
  {
  }

  /** Euclidean remainders are unique. */
  lemma ModUnique(x: int, n: int, q: int, r: int)
    requires n > 0 && 0 <= r < n && x == q * n + r
    ensures x % n == r
  {
    var q', r' := x / n, x % n;
    assert x == q' * n + r';
    if q > q' {
      MulAtLeast(q - q', n);
      assert false;
    } else if q < q' {
      MulAtLeast(q' - q, n);
      assert false;
    }
  }

  /** `Pos` is the remainder. */
  lemma {:induction false} PosIsMod(x: nat, n: nat)
    requires n > 0
    ensures Pos(x, n) == x % n
    decreases x
  {
    if x >= n {
      PosIsMod(x - n, n);
      var q := (x - n) / n;
      assert x - n == q * n + (x - n) % n;
      assert x == (q + 1) * n + (x - n) % n;
      ModUnique(x, n, q + 1, (x - n) % n);
    } else {
      ModUnique(x, n, 0, x);
    }
  }

  /** One more turn moves one position on, wrapping at the end of the round. */
  lemma {:induction false} PosSucc(x: nat, n: nat)
    requires n > 0
    ensures Pos(x + 1, n) == Pos(Pos(x, n) + 1, n)
    decreases x
  {
    if x >= n {
      PosSucc(x - n, n);
      assert x + 1 - n == (x - n) + 1;
    }
  }

  /**
   * The entries of `log` from position `from` on were written by the participants in rotation,
   * the first of them for turn `turn0`: entry `i` by `parts[Pos(turn0 + i - from, |parts|)]`.
   */
  ghost predicate Rotation(heap: seq<Agent>, from: nat, log: seq<LogEntry>, parts: seq<nat>, turn0: nat,
                           hostId: string, tempId: string)
    requires |parts| > 0 && Within(heap, parts)
  {
    forall i :: from <= i < |log| ==>
      SaidBy(log[i], heap[parts[Pos(turn0 + (i - from), |parts|)]], hostId, tempId)
  }

  /**
   * The entry logged at position `i` by the loop, for turn `t.turn + (i - |t.log|)`, was written by
   * participant `parts[Pos(t.turn + (i - |t.log|), |parts|)]`, as long as the loop starts at the
   * position the turn count says (or at the top of an iteration with everybody ready).
   */
  lemma {:induction false} DiscussionSaidAt(t: Talk, parts: seq<nat>, r: nat, k: nat, maxRounds: int, hostId: string,
                                            tempId: string, script: nat -> Reply, i: nat)
    requires |parts| > 0 && k <= |parts| && Within(t.heap, parts) && (k == 0 || r < maxRounds)
    requires Pos(t.turn, |parts|) == Pos(k, |parts|) || (k == 0 && |t.done| == |parts|)
    requires |t.log| <= i < |Discussion(t, parts, r, k, maxRounds, hostId, tempId, script).log|
    ensures SaidBy(Discussion(t, parts, r, k, maxRounds, hostId, tempId, script).log[i],
                   t.heap[parts[Pos(t.turn + (i - |t.log|), |parts|)]], hostId, tempId)
    decreases maxRounds - r, |parts| - k, 2
  {
    if k == 0 && (r >= maxRounds || |t.done| == |parts|) {
    } else if k == |parts| {
      NextRoundSaidAt(t, parts, r, maxRounds, hostId, tempId, script, i);
    } else {
      PosBelow(k, |parts|);
      TurnSaidAt(t, parts, r, k, maxRounds, hostId, tempId, script, i);
    }
  }

  lemma {:induction false} TurnSaidAt(t: Talk, parts: seq<nat>, r: nat, k: nat, maxRounds: int, hostId: string,
                                      tempId: string, script: nat -> Reply, i: nat)
    requires |parts| > 0 && k < |parts| && Within(t.heap, parts) && r < maxRounds && Pos(t.turn, |parts|) == k
    requires |t.log| <= i < |Turn(t, parts, r, k, maxRounds, hostId, tempId, script).log|
    ensures SaidBy(Turn(t, parts, r, k, maxRounds, hostId, tempId, script).log[i],
                   t.heap[parts[Pos(t.turn + (i - |t.log|), |parts|)]], hostId, tempId)
    decreases maxRounds - r, |parts| - k, 1
  {
    var n := |parts|;
    var next := Speak(t, parts, k, hostId, tempId, script);
    var log' := Turn(t, parts, r, k, maxRounds, hostId, tempId, script).log;
    var x := t.turn + (i - |t.log|);
    if i == |t.log| {
      assert log'[i] == next.log[i];
    } else if script(t.turn).Answered? && |next.done| == n {
      NextRoundQuiet(next, parts, r, maxRounds, hostId, tempId, script);
      assert false;
    } else {
      PosSucc(t.turn, n);
      assert Pos(next.turn, n) == Pos(k + 1, n);
      assert next.turn + (i - |next.log|) == x;
      DiscussionSaidAt(next, parts, r, k + 1, maxRounds, hostId, tempId, script, i);
      SpeakKeepsSpeakers(t, parts, k, hostId, tempId, script, log'[i], parts[Pos(x, n)]);
    }
  }

  lemma {:induction false} NextRoundSaidAt(t: Talk, parts: seq<nat>, r: nat, maxRounds: int, hostId: string,
                                           tempId: string, script: nat -> Reply, i: nat)
    requires |parts| > 0 && Within(t.heap, parts) && r < maxRounds
    requires Pos(t.turn, |parts|) == 0 || |t.done| == |parts|
    requires |t.log| <= i < |NextRound(t, parts, r, maxRounds, hostId, tempId, script).log|
    ensures SaidBy(NextRound(t, parts, r, maxRounds, hostId, tempId, script).log[i],
                   t.heap[parts[Pos(t.turn + (i - |t.log|), |parts|)]], hostId, tempId)
    decreases maxRounds - r, 0, 0
  {
    if t.turn < maxRounds {
      DiscussionSaidAt(t, parts, r + 1, 0, maxRounds, hostId, tempId, script, i);
    }
  }

  /** Once everybody is ready, the bottom of the iteration ends the loop without another word. */
  lemma NextRoundQuiet(t: Talk, parts: seq<nat>, r: nat, maxRounds: int, hostId: string, tempId: string,
                       script: nat -> Reply)
    requires Within(t.heap, parts) && r < maxRounds && |t.done| == |parts|
    ensures NextRound(t, parts, r, maxRounds, hostId, tempId, script).log == t.log
  {
  }

  /** An entry said by an agent is said by any copy of it with a longer history. */
  lemma SaidByKept(e: LogEntry, h: seq<Agent>, h': seq<Agent>, o: nat, hostId: string, tempId: string)
    requires o < |h| && |h'| == |h| && KeptAt(h, h', o) && SaidBy(e, h'[o], hostId, tempId)
    ensures SaidBy(e, h[o], hostId, tempId)
  {
    assert h'[o].name == h[o].name && h'[o].id == h[o].id;
  }

  /** A turn changes no agent's name or id, so it keeps who said an entry. */
  lemma SpeakKeepsSpeakers(t: Talk, parts: seq<nat>, k: nat, hostId: string, tempId: string, script: nat -> Reply,
                           e: LogEntry, o: nat)
    requires k < |parts| && Within(t.heap, parts) && o < |t.heap|
    requires SaidBy(e, Speak(t, parts, k, hostId, tempId, script).heap[o], hostId, tempId)
    ensures SaidBy(e, t.heap[o], hostId, tempId)
  {
    SpeakKeptAt(t, parts, k, hostId, tempId, script, o);
    SaidByKept(e, t.heap, Speak(t, parts, k, hostId, tempId, script).heap, o, hostId, tempId);
  }

  lemma PosBelow(x: nat, n: nat)
    requires x < n
    ensures Pos(x, n) == x
  {
  }

  /** Turn order: the loop's entries were written by the participants in rotation from the current turn on. */
  lemma DiscussionInOrder(t: Talk, parts: seq<nat>, r: nat, k: nat, maxRounds: int, hostId: string,
                          tempId: string, script: nat -> Reply)
    requires |parts| > 0 && k <= |parts| && Within(t.heap, parts) && (k == 0 || r < maxRounds)
    requires Pos(t.turn, |parts|) == Pos(k, |parts|) || (k == 0 && |t.done| == |parts|)
    ensures Rotation(t.heap, |t.log|, Discussion(t, parts, r, k, maxRounds, hostId, tempId, script).log, parts, t.turn,
                     hostId, tempId)
  {
    var log := Discussion(t, parts, r, k, maxRounds, hostId, tempId, script).log;
    forall i | |t.log| <= i < |log|
      ensures SaidBy(log[i], t.heap[parts[Pos(t.turn + (i - |t.log|), |parts|)]], hostId, tempId)
    {
      DiscussionSaidAt(t, parts, r, k, maxRounds, hostId, tempId, script, i);
    }
  }

  /** The turn budget: a round starts only with turns left, so it ends at most `|parts| - 1` turns past the budget. */
  lemma {:induction false} DiscussionTurnBound(t: Talk, parts: seq<nat>, r: nat, k: nat, maxRounds: int, hostId: string,
                                               tempId: string, script: nat -> Reply)
    requires k <= |parts| && Within(t.heap, parts) && (k == 0 || r < maxRounds)
    requires t.turn < maxRounds + k
    ensures Discussion(t, parts, r, k, maxRounds, hostId, tempId, script).turn < maxRounds + |parts|
    decreases maxRounds - r, |parts| - k, 2
  {
    if k == 0 && (r >= maxRounds || |t.done| == |parts|) {
    } else if k == |parts| {
      NextRoundTurnBound(t, parts, r, maxRounds, hostId, tempId, script);
    } else {
      TurnTurnBound(t, parts, r, k, maxRounds, hostId, tempId, script);
    }
  }

  lemma {:induction false} TurnTurnBound(t: Talk, parts: seq<nat>, r: nat, k: nat, maxRounds: int, hostId: string,
                                         tempId: string, script: nat -> Reply)
    requires k < |parts| && Within(t.heap, parts) && r < maxRounds
    requires t.turn < maxRounds + k
    ensures Turn(t, parts, r, k, maxRounds, hostId, tempId, script).turn < maxRounds + |parts|
    decreases maxRounds - r, |parts| - k, 1
  {
    var next := Speak(t, parts, k, hostId, tempId, script);
    if script(t.turn).Answered? && |next.done| == |parts| {
      NextRoundTurnBound(next, parts, r, maxRounds, hostId, tempId, script);
    } else {
      DiscussionTurnBound(next, parts, r, k + 1, maxRounds, hostId, tempId, script);
    }
  }

  lemma {:induction false} NextRoundTurnBound(t: Talk, parts: seq<nat>, r: nat, maxRounds: int, hostId: string,
                                              tempId: string, script: nat -> Reply)
    requires Within(t.heap, parts) && r < maxRounds
    requires t.turn < maxRounds + |parts|
    ensures NextRound(t, parts, r, maxRounds, hostId, tempId, script).turn < maxRounds + |parts|
    decreases maxRounds - r, 0, 0
  {
    if t.turn < maxRounds {
      DiscussionTurnBound(t, parts, r + 1, 0, maxRounds, hostId, tempId, script);
    }
  }

  /** The loop ends only with everybody ready or with the turn count at the budget. */
  lemma {:induction false} DiscussionEnd(t: Talk, parts: seq<nat>, r: nat, k: nat, maxRounds: int, hostId: string,
                                         tempId: string, script: nat -> Reply)
    requires |parts| > 0 && k <= |parts| && Within(t.heap, parts) && (k == 0 || r < maxRounds)
    requires t.turn >= r + k
    ensures var t' := Discussion(t, parts, r, k, maxRounds, hostId, tempId, script);
      |t'.done| == |parts| || t'.turn >= maxRounds
    decreases maxRounds - r, |parts| - k, 2
  {
    if k == 0 && (r >= maxRounds || |t.done| == |parts|) {
    } else if k == |parts| {
      NextRoundEnd(t, parts, r, maxRounds, hostId, tempId, script);
    } else {
      TurnEnd(t, parts, r, k, maxRounds, hostId, tempId, script);
    }
  }

  lemma {:induction false} TurnEnd(t: Talk, parts: seq<nat>, r: nat, k: nat, maxRounds: int, hostId: string,
                                   tempId: string, script: nat -> Reply)
    requires |parts| > 0 && k < |parts| && Within(t.heap, parts) && r < maxRounds
    requires t.turn >= r + k
    ensures var t' := Turn(t, parts, r, k, maxRounds, hostId, tempId, script);
      |t'.done| == |parts| || t'.turn >= maxRounds
    decreases maxRounds - r, |parts| - k, 1
  {
    var next := Speak(t, parts, k, hostId, tempId, script);
    if script(t.turn).Answered? && |next.done| == |parts| {
      NextRoundEnd(next, parts, r, maxRounds, hostId, tempId, script);
    } else {
      DiscussionEnd(next, parts, r, k + 1, maxRounds, hostId, tempId, script);
    }
  }

  lemma {:induction false} NextRoundEnd(t: Talk, parts: seq<nat>, r: nat, maxRounds: int, hostId: string,
                                        tempId: string, script: nat -> Reply)
    requires |parts| > 0 && Within(t.heap, parts) && r < maxRounds
    requires t.turn >= r + 1
    ensures var t' := NextRound(t, parts, r, maxRounds, hostId, tempId, script);
      |t'.done| == |parts| || t'.turn >= maxRounds
    decreases maxRounds - r, 0, 0
  {
    if t.turn < maxRounds {
      DiscussionEnd(t, parts, r + 1, 0, maxRounds, hostId, tempId, script);
    }
  }
}
