/**
 * The MCP server manager of backend/agency.py: a registry of tool-provider servers
 * with a running flag per server and a supervising task per started server.
 * The server processes and the asyncio tasks themselves are not modelled; only the
 * flags they leave behind are.
 */
module Servers {

  /**
   * The manager's bookkeeping as a value: the keys of `servers`, the `_running_servers`
   * flags and the keys of `_server_tasks`.
   */
  datatype ServerTable = ServerTable(registered: set<string>, running: map<string, bool>, tasks: set<string>)

  /** `_running_servers.get(id, False)`. */
  predicate Running(t: ServerTable, id: string) {
    id in t.running && t.running[id]
  }

  /** What every operation of the manager keeps: a running server is registered and has a task. */
  predicate Consistent(t: ServerTable) {
    forall id :: id in t.running && t.running[id] ==> id in t.registered && id in t.tasks
  }

  /** `add_server`: register the server and mark it not running (even if it was). */
  function Added(t: ServerTable, id: string): (r: ServerTable)
    ensures r.registered == t.registered + {id} && r.tasks == t.tasks
    ensures !Running(r, id)
    ensures forall other :: other != id ==> (Running(r, other) <==> Running(t, other))
  {
    t.(registered := t.registered + {id}, running := t.running[id := false])
  }

  /** `start_server`: the new table and the returned flag. */
  function Started(t: ServerTable, id: string): (r: (ServerTable, bool))
    ensures id !in t.registered ==> r == (t, false)
    ensures id in t.registered && Running(t, id) ==> r == (t, true)
    ensures id in t.registered ==> r.1 && Running(r.0, id)
    ensures id in t.registered && !Running(t, id) ==> id in r.0.tasks
    ensures r.0.registered == t.registered && t.tasks <= r.0.tasks
    ensures forall other :: other != id ==> (Running(r.0, other) <==> Running(t, other))
  {
    if id !in t.registered then (t, false)
    else if Running(t, id) then (t, true)
    else (t.(tasks := t.tasks + {id}, running := t.running[id := true]), true)
  }

  /** `stop_server`: only a running server with a task is stopped; its task entry stays. */
  function Stopped(t: ServerTable, id: string): (r: (ServerTable, bool))
    ensures r.1 <==> id in t.tasks && Running(t, id)
    ensures !r.1 ==> r.0 == t
    ensures id in t.tasks ==> !Running(r.0, id)
    ensures r.0.registered == t.registered && r.0.tasks == t.tasks && r.0.running.Keys == t.running.Keys
    ensures forall other :: other != id ==> (Running(r.0, other) <==> Running(t, other))
  {
    if id !in t.tasks || !Running(t, id) then (t, false)
    else (t.(running := t.running[id := false]), true)
  }

  /** `stop_all_servers`: every server that has a task ends up not running. */
  function AllStopped(t: ServerTable): (r: ServerTable)
    ensures r.registered == t.registered && r.tasks == t.tasks && r.running.Keys == t.running.Keys
    ensures forall id :: id in t.tasks ==> !Running(r, id)
    ensures forall id :: id !in t.tasks ==> (Running(r, id) <==> Running(t, id))
  {
    t.(running := map k | k in t.running :: if k in t.tasks then false else t.running[k])
  }

  /** The crash path of `_run_server`: the task's server is marked not running. */
  function Crashed(t: ServerTable, id: string): (r: ServerTable)
    ensures !Running(r, id)
    ensures forall other :: other != id ==> (Running(r, other) <==> Running(t, other))
  {
    t.(running := t.running[id := false])
  }

  /**
   * The start-up loop at the head of `Agent.run`: every listed server that is not
   * running is started, in order.
   */
  function StartAll(t: ServerTable, ids: seq<string>): (r: ServerTable)
    ensures r.registered == t.registered && t.tasks <= r.tasks
    decreases |ids|
  {
    if ids == [] then t
    else
      var t' := if Running(t, ids[0]) then t else Started(t, ids[0]).0;
      StartAll(t', ids[1..])
  }

  /** After the start-up loop every listed registered server runs, and no other server changed. */
  lemma {:induction false} StartAllEffect(t: ServerTable, ids: seq<string>)
    ensures forall k :: 0 <= k < |ids| && ids[k] in t.registered ==> Running(StartAll(t, ids), ids[k])
    ensures forall id :: id !in ids ==> (Running(StartAll(t, ids), id) <==> Running(t, id))
    decreases |ids|
  {
    if ids != [] {
      var t' := if Running(t, ids[0]) then t else Started(t, ids[0]).0;
      StartAllEffect(t', ids[1..]);
      if ids[0] in t.registered {
        StartAllKeepsRunning(t', ids[1..], ids[0]);
      }
      forall k | 0 < k < |ids| && ids[k] in t.registered
        ensures Running(StartAll(t, ids), ids[k])
      {
        assert ids[k] == ids[1..][k - 1];
      }
    }
  }

  /** A running server keeps running through the start-up loop. */
  lemma {:induction false} StartAllKeepsRunning(t: ServerTable, ids: seq<string>, id: string)
    requires Running(t, id)
    ensures Running(StartAll(t, ids), id)
    decreases |ids|
  {
    if ids != [] {
      var t' := if Running(t, ids[0]) then t else Started(t, ids[0]).0;
      StartAllKeepsRunning(t', ids[1..], id);
    }
  }

  /** Every operation of the manager keeps `Consistent`. */
  lemma OperationsKeepConsistent(t: ServerTable, id: string, ids: seq<string>)
    requires Consistent(t)
    ensures Consistent(Added(t, id))
    ensures Consistent(Started(t, id).0)
    ensures Consistent(Stopped(t, id).0)
    ensures Consistent(AllStopped(t))
    ensures Consistent(Crashed(t, id))
    ensures Consistent(StartAll(t, ids))
  {
    StartAllKeepsConsistent(t, ids);
  }

  lemma {:induction false} StartAllKeepsConsistent(t: ServerTable, ids: seq<string>)
    requires Consistent(t)
    ensures Consistent(StartAll(t, ids))
    decreases |ids|
  {
    if ids != [] {
      var t' := if Running(t, ids[0]) then t else Started(t, ids[0]).0;
      assert Consistent(t');
      StartAllKeepsConsistent(t', ids[1..]);
    }
  }

  /** Starting twice is starting once, and a started server is then stopped by one `stop_server`. */
  lemma StartIdempotentThenStop(t: ServerTable, id: string)
    requires Consistent(t) && id in t.registered
    ensures Started(Started(t, id).0, id) == Started(t, id)
    ensures Stopped(Started(t, id).0, id).1
    ensures !Running(Stopped(Started(t, id).0, id).0, id)
  {
  }

  class MCPServerManager {
    var servers: set<string>
    var running: map<string, bool>
    var tasks: set<string>

    function Table(): ServerTable
      reads this
    {
      ServerTable(servers, running, tasks)
    }

    constructor ()
      ensures Table() == ServerTable({}, map[], {})
    {
      servers, running, tasks := {}, map[], {};
    }

    method AddServer(id: string)
      modifies this
      ensures Table() == Added(old(Table()), id)
    {
      servers := servers + {id};
      running := running[id := false];
    }

    method StartServer(id: string) returns (ok: bool)
      modifies this
      ensures (Table(), ok) == Started(old(Table()), id)
    {
      if id !in servers {
        return false;
      }
      if id in running && running[id] {
        return true;
      }
      tasks := tasks + {id};
      running := running[id := true];
      ok := true;
    }

    method StopServer(id: string) returns (ok: bool)
      modifies this
      ensures (Table(), ok) == Stopped(old(Table()), id)
    {
      if id !in tasks || !(id in running && running[id]) {
        return false;
      }
      running := running[id := false];
      ok := true;
    }

    /** Stops the servers of a snapshot of the task keys, one at a time. */
    method StopAllServers()
      modifies this
      ensures Table() == AllStopped(old(Table()))
    {
      var pending := tasks;
      while pending != {}
        invariant pending <= tasks
        invariant servers == old(servers) && tasks == old(tasks)
        invariant running.Keys == old(running).Keys
        invariant forall k :: k in running ==>
          running[k] == (if k in old(tasks) - pending then false else old(running)[k])
        decreases pending
      {
        var id :| id in pending;
        var _ := StopServer(id);
        pending := pending - {id};
      }
    }

    /** The failure path of the supervising task: its server is marked not running. */
    method MarkCrashed(id: string)
      requires id in tasks
      modifies this
      ensures Table() == Crashed(old(Table()), id)
    {
      running := running[id := false];
    }

    predicate IsRunning(id: string)
      reads this
    {
      Running(Table(), id)
    }

    function GetRunningServers(): (r: set<string>)
      reads this
      ensures forall id :: id in r <==> IsRunning(id)
    {
      set id | id in running && running[id]
    }

    /**
     * `wait_for_server_ready` with the wall clock replaced by integer ticks: the k-th probe
     * (counting from 0) is issued when `k * interval` ticks have elapsed, and `probe(k)` is
     * whether it succeeds. Returns whether the server became ready and how many probes were sent.
     */
    method WaitForServerReady(id: string, timeout: int, interval: int, probe: nat -> bool)
      returns (ready: bool, probes: nat)
      requires interval > 0
      ensures id !in servers ==> !ready && probes == 0
      ensures forall k :: 0 <= k < probes ==> k * interval < timeout
      ensures forall k :: 0 <= k < probes ==> (probe(k) <==> ready && k == probes - 1)
      ensures ready ==> probes >= 1
      ensures id in servers && !ready ==> probes * interval >= timeout
    {
      if id !in servers {
        return false, 0;
      }
      var elapsed := 0;
      probes := 0;
      while elapsed < timeout
        invariant elapsed == probes * interval
        invariant forall k :: 0 <= k < probes ==> k * interval < timeout && !probe(k)
        decreases timeout - elapsed
      {
        if probe(probes) {
          ready := true;
          probes := probes + 1;
          return;
        }
        probes := probes + 1;
        elapsed := elapsed + interval;
      }
      ready := false;
    }
  }

  /**
   * What `wait_for_server_ready` promises: a registered server is reported ready exactly when
   * some probe issued before the timeout succeeds, and no probe follows the first success.
   */
  lemma ReadyIffSomeProbeInTime(timeout: int, interval: int, probe: nat -> bool, ready: bool, probes: nat)
    requires interval > 0
    requires forall k :: 0 <= k < probes ==> k * interval < timeout
    requires forall k :: 0 <= k < probes ==> (probe(k) <==> ready && k == probes - 1)
    requires ready ==> probes >= 1
    requires !ready ==> probes * interval >= timeout
    ensures ready <==> exists k: nat :: k * interval < timeout && probe(k)
    ensures ready ==> forall k: nat :: k < probes - 1 ==> !probe(k)
  {
    if ready {
      assert probe(probes - 1);
    } else {
      forall k: nat | k * interval < timeout
        ensures !probe(k)
      {
        if k >= probes {
          assert k * interval >= probes * interval by {
            MulMonotone(probes, k, interval);
          }
          assert false;
        }
      }
    }
  }

  lemma MulMonotone(a: nat, b: nat, c: nat)
    requires a <= b
    ensures a * c <= b * c
  {
  }
}
