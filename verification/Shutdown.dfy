/** The order of a controller's shutdown (node/controller.go, CloseContext): join the tasks, stop
    forwarding, persist the counters, delete the node. The three machines it relies on meet here. */
module Shutdown {
  import opened Options
  import opened TrafficTypes
  import opened Totals
  import opened OutboxClient
  import opened NodeCounters
  import TaskLifecycle
  import RevocationBarrier

  /** A periodic task so far, and the call of its CloseContext. */
  datatype TaskRun = TaskRun(start: TaskLifecycle.Task, acts: seq<TaskLifecycle.Action>, closer: nat)

  /** The callbacks and the administration of the node so far. */
  datatype NodeRun = NodeRun(start: RevocationBarrier.Node, acts: seq<RevocationBarrier.Action>)

  /** What it means that CloseContext of a task has returned nil. */
  predicate Joined(r: TaskRun) {
    && TaskLifecycle.Initial(r.start) && TaskLifecycle.Exec(r.start, r.acts).Some?
    && r.closer in TaskLifecycle.Exec(r.start, r.acts).value.closers
    && TaskLifecycle.Exec(r.start, r.acts).value.closers[r.closer].Closed?
  }

  function NodeState(n: NodeRun): RevocationBarrier.Node
    requires RevocationBarrier.Exec(n.start, n.acts).Some?
  {
    RevocationBarrier.Exec(n.start, n.acts).value
  }

  /** What it means that QuiesceNode has returned nil: DelUsers has returned for every user. */
  ghost predicate Quiesced(n: NodeRun) {
    && RevocationBarrier.Initial(n.start) && RevocationBarrier.Exec(n.start, n.acts).Some?
    && NodeState(n).admin.Free? && NodeState(n).auth == map[]
  }

  /** Whatever else is called on the task, nothing of it runs again. */
  ghost predicate StaysAtRest(r: TaskRun)
    requires Joined(r)
  {
    forall after :: TaskLifecycle.Exec(TaskLifecycle.Exec(r.start, r.acts).value, after).Some? ==>
      TaskLifecycle.AtRest(TaskLifecycle.Exec(TaskLifecycle.Exec(r.start, r.acts).value, after).value)
  }

  /** Whatever callbacks are still running, no counter grows until somebody is added. */
  ghost predicate CountsNothing(n: NodeRun)
    requires Quiesced(n)
  {
    var node := RevocationBarrier.Exec(n.start, n.acts).value;
    forall acts: seq<RevocationBarrier.Action> ::
      RevocationBarrier.Exec(node, acts).Some? && (forall a :: a in acts ==> !a.AddUser?) ==>
      NoneGrew(node, RevocationBarrier.Exec(node, acts).value)
  }

  predicate NoneGrew(n: RevocationBarrier.Node, m: RevocationBarrier.Node) {
    && |m.storages| == |n.storages|
    && forall k :: 0 <= k < |n.storages| ==>
         m.storages[k].up <= n.storages[k].up && m.storages[k].down <= n.storages[k].down
  }

  lemma JoinedStaysAtRest(r: TaskRun)
    requires Joined(r)
    ensures StaysAtRest(r)
  {
    var t := TaskLifecycle.Exec(r.start, r.acts).value;
    forall after | TaskLifecycle.Exec(t, after).Some?
      ensures TaskLifecycle.AtRest(TaskLifecycle.Exec(t, after).value)
    {
      TaskLifecycle.CloseReallyStops(r.start, r.acts, after, r.closer);
    }
  }

  lemma QuiescedCountsNothing(n: NodeRun)
    requires Quiesced(n)
    ensures CountsNothing(n)
  {
    var node := RevocationBarrier.Exec(n.start, n.acts).value;
    forall acts: seq<RevocationBarrier.Action>
      | RevocationBarrier.Exec(node, acts).Some? && forall a :: a in acts ==> !a.AddUser?
      ensures NoneGrew(node, RevocationBarrier.Exec(node, acts).value)
    {
      RevocationBarrier.QuiescedNodeCountsNothing(n.start, n.acts, acts);
    }
  }

  /** The loop over the tasks stops at the first that has not joined. */
  method JoinAll(joins: seq<bool>, ghost tasks: seq<TaskRun>) returns (ok: bool)
    requires |joins| == |tasks| && forall i :: 0 <= i < |joins| && joins[i] ==> Joined(tasks[i])
    ensures ok <==> forall i :: 0 <= i < |joins| ==> joins[i]
    ensures ok ==> forall i :: 0 <= i < |joins| ==> Joined(tasks[i]) && StaysAtRest(tasks[i])
  {
    for i := 0 to |joins|
      invariant forall k :: 0 <= k < i ==> joins[k] && Joined(tasks[k]) && StaysAtRest(tasks[k])
    {
      if !joins[i] {
        return false;
      }
      JoinedStaysAtRest(tasks[i]);
    }
    return true;
  }

  class Controller {
    const client: Client
    var closed: bool

    constructor (client: Client)
      ensures this.client == client && !closed
    {
      this.client, closed := client, false;
    }

    /** A controller that has closed has persisted everything. */
    ghost predicate Valid()
      reads this, client, client.w
    {
      client.Valid() && (closed ==> client.drainSaved)
    }

    /** CloseContext. `joins`, `quiesceOk` and `deleteOk` are the outcomes of the calls, `tasks` and
        `node` what they stand for; the outbox captures the counters of that node. The counters are
        persisted only behind tasks that never run again and a node whose counters no longer grow, and
        the node is deleted only when the durable file accounts for them; any failure leaves the rest
        undone, for a retry. */
    method CloseContext(joins: seq<bool>, started: bool, quiesceOk: bool, deleteOk: bool,
                        ghost tasks: seq<TaskRun>, ghost node: NodeRun)
        returns (ok: bool, deleted: bool)
      requires Valid() && |joins| == |tasks|
      requires forall i :: 0 <= i < |joins| && joins[i] ==> Joined(tasks[i])
      requires quiesceOk ==> Quiesced(node) && client.w.sys.ram == CountersOf(NodeState(node))
      modifies this, client, client.w
      ensures Valid() && (old(closed) ==> ok && closed && !deleted)
      ensures !old(closed) ==> (deleted <==> ok && started) && (deleted <==> closed)
      ensures ok && started ==> closed && client.drainSaved && client.Conserved()
      ensures !ok ==>
                || (exists i :: 0 <= i < |joins| && !joins[i])
                || (started && (!quiesceOk || !deleteOk))
                || client.w.setbacks > old(client.w.setbacks) || client.TooMany()
      ensures deleted ==>
                quiesceOk && client.drainSaved && client.Conserved() && client.w.sys.ram == CountersOf(NodeState(node))
      ensures !old(closed) && (client.w.run != old(client.w.run) || deleted) ==>
                && (forall i :: 0 <= i < |joins| ==> joins[i] && Joined(tasks[i]) && StaysAtRest(tasks[i]))
                && quiesceOk && CountsNothing(node)
      ensures old(client.draining) ==> client.draining && client.drainBase == old(client.drainBase)
    {
      deleted := false;
      if closed {
        return true, false;
      }
      ok := JoinAll(joins, tasks);
      if !ok {
        return false, false;
      }
      if !started {
        return true, false;
      }
      if !quiesceOk {
        return false, false;
      }
      QuiescedCountsNothing(node);
      client.w.StopCounting();
      ok := client.PersistTraffic();
      if !ok || !deleteOk {
        return false, false;
      }
      deleted, closed := true, true;
    }
  }
}
